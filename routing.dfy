/**
 * The application shell (src/App.tsx): the session flag, the role and the id of
 * the current view, the three transitions that change them, and the switch that
 * picks the screen to render for a view id.
 */
module Routing {
  import opened Types
  import Navigation

  /** The screens the shell can render. */
  datatype Screen = LoginScreen | PatientDashboard | AppointmentBooking | TelemedicineSession | AdminPanel

  /** The view id that the switch maps to each screen by name. */
  function ScreenId(s: Screen): string
  {
    match s
    case LoginScreen => "login"
    case PatientDashboard => "dashboard"
    case AppointmentBooking => "booking"
    case TelemedicineSession => "telemedicine"
    case AdminPanel => "admin"
  }

  /** The view ids the switch has a case for. */
  const KnownViews: set<string> := {"login", "dashboard", "booking", "telemedicine", "admin"}

  /**
   * The screen rendered for a view id: every known id selects the screen it
   * names, and any other id falls back to the patient dashboard.
   */
  function ScreenFor(view: string): (s: Screen)
    ensures view in KnownViews ==> ScreenId(s) == view
    ensures view !in KnownViews ==> s == PatientDashboard
  {
    match view
    case "login" => LoginScreen
    case "dashboard" => PatientDashboard
    case "booking" => AppointmentBooking
    case "telemedicine" => TelemedicineSession
    case "admin" => AdminPanel
    case _ => PatientDashboard
  }

  /** Every screen is reachable through its own view id. */
  lemma ScreenForScreenId(s: Screen)
    ensures ScreenId(s) in KnownViews
    ensures ScreenFor(ScreenId(s)) == s
  {
  }

  /** Ids other screens navigate to that the switch does not know render the dashboard. */
  lemma UnknownViewsRenderDashboard()
    ensures ScreenFor("history") == PatientDashboard
    ensures ScreenFor("settings") == PatientDashboard
    ensures ScreenFor("appointments") == PatientDashboard
  {
  }

  /** The view a fresh login lands on: the admin panel for admins, the dashboard otherwise. */
  function LandingView(role: Role): (view: string)
    ensures ScreenFor(view) == (if role == Admin then AdminPanel else PatientDashboard)
    ensures view in KnownViews
  {
    if role == Admin then "admin" else "dashboard"
  }

  class App {
    var isAuthenticated: bool
    var userRole: Role
    var currentView: string

    /** Unauthenticated, role patient, on the login view. */
    constructor ()
      ensures !isAuthenticated && userRole == Patient && currentView == "login"
      ensures CurrentScreen() == LoginScreen && !NavigationShown()
    {
      isAuthenticated := false;
      userRole := Patient;
      currentView := "login";
    }

    /** The screen in the main area: the one the current view names, or the dashboard for an unknown view. */
    function CurrentScreen(): (s: Screen)
      reads this
      ensures currentView in KnownViews ==> ScreenId(s) == currentView
      ensures currentView !in KnownViews ==> s == PatientDashboard
    {
      ScreenFor(currentView)
    }

    /** The navigation bar is rendered only inside a session. */
    function NavigationShown(): (shown: bool)
      reads this
      ensures shown <==> isAuthenticated
    {
      isAuthenticated
    }

    method Login(role: Role)
      modifies this
      ensures isAuthenticated && userRole == role && currentView == LandingView(role)
      ensures NavigationShown()
      ensures CurrentScreen() == if role == Admin then AdminPanel else PatientDashboard
    {
      isAuthenticated := true;
      userRole := role;
      currentView := LandingView(role);
    }

    /** Ends the session and returns to the login view; the role is left as it was. */
    method Logout()
      modifies this
      ensures !isAuthenticated && currentView == "login" && userRole == old(userRole)
      ensures !NavigationShown() && CurrentScreen() == LoginScreen
    {
      isAuthenticated := false;
      currentView := "login";
    }

    /** `setCurrentView`: any id is accepted as it is; the session is untouched. */
    method Navigate(view: string)
      modifies this
      ensures currentView == view
      ensures isAuthenticated == old(isAuthenticated) && userRole == old(userRole)
      ensures view !in KnownViews ==> CurrentScreen() == PatientDashboard
    {
      currentView := view;
    }

    /** Handles a request from the navigation bar: `onNavigate` or `onLogout`. */
    method Dispatch(ev: Navigation.NavEvent)
      modifies this
      ensures ev.NavigateTo? ==> currentView == ev.view && isAuthenticated == old(isAuthenticated)
      ensures ev.LogoutRequested? ==> !isAuthenticated && currentView == "login"
      ensures userRole == old(userRole)
    {
      match ev
      case NavigateTo(view) => Navigate(view);
      case LogoutRequested => Logout();
    }

    /**
     * A click on the k-th item of the bar: the view becomes that item's id, and
     * that item is then the only highlighted one.
     */
    method ClickNavItem(k: nat)
      requires NavigationShown() && k < |Navigation.NavItemsFor(userRole)|
      modifies this
      ensures isAuthenticated && userRole == old(userRole)
      ensures currentView == Navigation.NavItemsFor(userRole)[k].id
      ensures forall i :: 0 <= i < |Navigation.NavItemsFor(userRole)| ==>
                (Navigation.IsActive(Navigation.NavItemsFor(userRole)[i], currentView) <==> i == k)
    {
      var items := Navigation.NavItemsFor(userRole);
      Dispatch(Navigation.OnItemClick(items[k]));
      forall i | 0 <= i < |items|
        ensures Navigation.IsActive(items[i], currentView) <==> i == k
      {
        if Navigation.IsActive(items[i], currentView) {
          Navigation.AtMostOneActive(userRole, currentView, i, k);
        }
      }
    }

    /** The logout button of the bar: exactly a logout, nothing more. */
    method ClickLogout()
      requires NavigationShown()
      modifies this
      ensures !isAuthenticated && currentView == "login" && userRole == old(userRole)
      ensures CurrentScreen() == LoginScreen && !NavigationShown()
    {
      Dispatch(Navigation.OnLogoutClick());
    }

    /** Logging in under any role and then out again leaves an unauthenticated session on the login view. */
    method LoginThenLogout(role: Role)
      modifies this
      ensures !isAuthenticated && currentView == "login" && userRole == role
      ensures CurrentScreen() == LoginScreen
    {
      Login(role);
      Logout();
    }
  }
}
