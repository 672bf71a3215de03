/**
 * The login form (src/components/LoginScreen.tsx): the two text fields, the
 * password-visibility toggle, the loading flag, and the demo rule that derives
 * the role from the health id.
 */
module Login {
  import opened Types
  import Routing

  /** ASCII lower-casing of one character; other characters are left alone. */
  function LowerChar(c: char): char
  {
    if 'A' <= c <= 'Z' then (c as int - 'A' as int + 'a' as int) as char else c
  }

  /** ASCII lower-casing of a string, character by character. */
  function Lower(s: string): (r: string)
    ensures |r| == |s|
    ensures forall i :: 0 <= i < |s| ==> r[i] == LowerChar(s[i])
  {
    if s == [] then [] else [LowerChar(s[0])] + Lower(s[1..])
  }

  predicate StartsWith(s: string, prefix: string)
  {
    |prefix| <= |s| && s[..|prefix|] == prefix
  }

  /**
   * The demo role rule: admin exactly when the lower-cased health id starts with
   * "admin", that is, when its first five characters spell "admin" in any mix of
   * upper and lower case.
   */
  function RoleFor(healthId: string): (r: Role)
    ensures r == Admin <==>
              |healthId| >= 5
              && (healthId[0] == 'a' || healthId[0] == 'A') && (healthId[1] == 'd' || healthId[1] == 'D')
              && (healthId[2] == 'm' || healthId[2] == 'M') && (healthId[3] == 'i' || healthId[3] == 'I')
              && (healthId[4] == 'n' || healthId[4] == 'N')
  {
    var lowered := Lower(healthId);
    assert |lowered| >= 5 ==> (StartsWith(lowered, "admin") <==>
      lowered[0] == 'a' && lowered[1] == 'd' && lowered[2] == 'm' && lowered[3] == 'i' && lowered[4] == 'n');
    if StartsWith(lowered, "admin") then Admin else Patient
  }

  /** Examples of the rule: case does not matter, but the prefix must come first. */
  lemma RoleForExamples()
    ensures RoleFor("admin123") == Admin
    ensures RoleFor("ADMIN123") == Admin
    ensures RoleFor("AdMiN") == Admin
    ensures RoleFor("xadmin") == Patient
    ensures RoleFor("adm") == Patient
    ensures RoleFor("12345678A") == Patient
  {
  }

  /** How the password input is rendered. */
  datatype InputType = Text | Password

  class LoginForm {
    var healthId: string
    var password: string
    var showPassword: bool
    var isLoading: bool

    constructor ()
      ensures healthId == "" && password == "" && !showPassword && !isLoading
    {
      healthId := "";
      password := "";
      showPassword := false;
      isLoading := false;
    }

    /** The password is shown in clear exactly while `showPassword` is set. */
    function PasswordInputType(): (t: InputType)
      reads this
      ensures t == Text <==> showPassword
    {
      if showPassword then Text else Password
    }

    /** The submit button is disabled exactly while a submission is in flight. */
    function SubmitDisabled(): (disabled: bool)
      reads this
      ensures disabled <==> isLoading
    {
      isLoading
    }

    method SetHealthId(v: string)
      modifies this
      ensures healthId == v
      ensures password == old(password) && showPassword == old(showPassword) && isLoading == old(isLoading)
    {
      healthId := v;
    }

    method SetPassword(v: string)
      modifies this
      ensures password == v
      ensures healthId == old(healthId) && showPassword == old(showPassword) && isLoading == old(isLoading)
    {
      password := v;
    }

    /** The eye button flips the visibility of the password and touches nothing else. */
    method TogglePassword()
      modifies this
      ensures showPassword == !old(showPassword)
      ensures PasswordInputType() == (if old(showPassword) then Password else Text)
      ensures healthId == old(healthId) && password == old(password) && isLoading == old(isLoading)
    {
      showPassword := !showPassword;
    }

    /** Two presses of the eye button leave the form as it was. */
    method ToggleTwice()
      modifies this
      ensures showPassword == old(showPassword) && PasswordInputType() == old(PasswordInputType())
      ensures healthId == old(healthId) && password == old(password) && isLoading == old(isLoading)
    {
      TogglePassword();
      TogglePassword();
    }

    /**
     * The first half of `handleSubmit`. The browser submits the form only when
     * the submit button is enabled and both required fields are filled; then the
     * form enters the loading state and the handler holds on to the health id it
     * was submitted with. Otherwise nothing happens and no id is returned.
     */
    method BeginSubmit() returns (pending: Option<string>)
      modifies this
      ensures pending.Some? <==> !old(isLoading) && old(healthId) != "" && old(password) != ""
      ensures pending.Some? ==> pending.value == old(healthId) && isLoading && SubmitDisabled()
      ensures pending.None? ==> isLoading == old(isLoading)
      ensures healthId == old(healthId) && password == old(password) && showPassword == old(showPassword)
    {
      if isLoading || healthId == "" || password == "" {
        pending := None;
      } else {
        isLoading := true;
        pending := Some(healthId);
      }
    }

    /**
     * The second half of `handleSubmit`, after the simulated delay: the role is
     * derived from the submitted health id alone (the password plays no part),
     * the shell logs in under it, and the loading state ends.
     */
    method CompleteSubmit(submittedId: string, app: Routing.App) returns (role: Role)
      modifies this, app
      ensures role == RoleFor(submittedId)
      ensures app.isAuthenticated && app.userRole == role && app.currentView == Routing.LandingView(role)
      ensures !isLoading && !SubmitDisabled()
      ensures healthId == old(healthId) && password == old(password) && showPassword == old(showPassword)
    {
      role := RoleFor(submittedId);
      app.Login(role);
      isLoading := false;
    }
  }

  /**
   * The demo walk-through: on a fresh shell, entering the health id "admin123"
   * with some password and submitting logs in as an admin on the admin view.
   */
  method AdminDemoLogin(password: string) returns (role: Role, view: string, authenticated: bool)
    requires password != ""
    ensures role == Admin && view == "admin" && authenticated
  {
    var app := new Routing.App();
    var form := new LoginForm();
    form.SetHealthId("admin123");
    form.SetPassword(password);
    var pending := form.BeginSubmit();
    role := form.CompleteSubmit(pending.value, app);
    RoleForExamples();
    view := app.currentView;
    authenticated := app.isAuthenticated;
  }
}
