/**
 * The top navigation bar (src/components/Navigation.tsx). It owns no state: the
 * item list is chosen by the session's role, an item is highlighted when it is
 * the current view, and clicks are turned into requests to the application shell.
 */
module Navigation {
  import opened Types

  /** Where an item's caption comes from: a locale key, or a fixed text. */
  datatype Label = Translated(key: string) | Literal(text: string)

  datatype NavItem = NavItem(id: string, caption: Label)

  /** What a click in the bar asks the application shell to do. */
  datatype NavEvent = NavigateTo(view: string) | LogoutRequested

  function PatientNavItems(): seq<NavItem>
  {
    [ NavItem("dashboard", Translated("dashboard.welcome")),
      NavItem("booking", Translated("dashboard.myAppointments")),
      NavItem("telemedicine", Translated("dashboard.telemedicine")),
      NavItem("history", Translated("dashboard.medicalHistory")) ]
  }

  function AdminNavItems(): seq<NavItem>
  {
    [ NavItem("admin", Translated("admin.title")),
      NavItem("dashboard", Literal("Dashboard")),
      NavItem("settings", Literal("Configuración")) ]
  }

  /** The ids of a list of items, in order. */
  function Ids(items: seq<NavItem>): (ids: seq<string>)
    ensures |ids| == |items|
    ensures forall i :: 0 <= i < |items| ==> ids[i] == items[i].id
  {
    if items == [] then [] else [items[0].id] + Ids(items[1..])
  }

  /** No two items of the list share an id. */
  predicate DistinctIds(items: seq<NavItem>)
  {
    forall i, j :: 0 <= i < j < |items| ==> items[i].id != items[j].id
  }

  /** The items the bar shows for a role: the admin list for admins, the patient list otherwise. */
  function NavItemsFor(role: Role): (items: seq<NavItem>)
    ensures role == Admin ==> Ids(items) == ["admin", "dashboard", "settings"]
    ensures role == Patient ==> Ids(items) == ["dashboard", "booking", "telemedicine", "history"]
    ensures DistinctIds(items)
  {
    if role == Admin then AdminNavItems() else PatientNavItems()
  }

  /** An item is highlighted when the current view is its id. */
  function IsActive(item: NavItem, currentView: string): (active: bool)
    ensures active <==> currentView == item.id
  {
    currentView == item.id
  }

  /** Clicking an item requests navigation to exactly that item's id. */
  function OnItemClick(item: NavItem): (ev: NavEvent)
    ensures ev.NavigateTo? && ev.view == item.id
  {
    NavigateTo(item.id)
  }

  /** The logout button requests a logout and nothing else. */
  function OnLogoutClick(): (ev: NavEvent)
    ensures ev.LogoutRequested?
  {
    LogoutRequested
  }

  /** Whatever the role and the current view, at most one item of the bar is highlighted. */
  lemma AtMostOneActive(role: Role, currentView: string, i: nat, j: nat)
    requires i < |NavItemsFor(role)| && j < |NavItemsFor(role)|
    requires IsActive(NavItemsFor(role)[i], currentView) && IsActive(NavItemsFor(role)[j], currentView)
    ensures i == j
  {
  }

  /** Some item is highlighted exactly when the current view is one of the role's item ids. */
  lemma SomeActiveIff(role: Role, currentView: string)
    ensures (exists i :: 0 <= i < |NavItemsFor(role)| && IsActive(NavItemsFor(role)[i], currentView))
            <==> currentView in Ids(NavItemsFor(role))
  {
    var items := NavItemsFor(role);
    if currentView in Ids(items) {
      var i :| 0 <= i < |Ids(items)| && Ids(items)[i] == currentView;
      assert IsActive(items[i], currentView);
    }
  }
}
