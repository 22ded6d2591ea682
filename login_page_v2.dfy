/**
 * The login page of UI/03-APP.js: a signed-in employee always leaves for the
 * employee area, a signed-in administrator is kept on #admin, and the page
 * may sign in by itself from the `name`, `empNo` and `password` query
 * parameters.
 */
module LoginPageV2 {
  import opened Wrappers
  import opened Sanitize
  import opened Credentials
  import opened AbuseGuard
  import opened SessionStore
  import opened LoginController

  predicate SignedInAs(auth: Auth, role: string) {
    auth.isAuthed && auth.role == Some(role)
  }

  /** The decision `render()` takes for the (defaulted) hash `hash`. */
  function Route(auth: Auth, hash: string, coolingDown: bool): (e: Effect)
    ensures !auth.isAuthed && (hash == ADMIN_HASH || hash == EMPLOYEE_HASH) ==> e == SetHash(LOGIN_HASH)
    ensures SignedInAs(auth, EMPLOYEE_ROLE) ==> e == LeaveFor(EMPLOYEE_HOME)
    ensures SignedInAs(auth, ADMIN_ROLE) ==> e == (if hash == ADMIN_HASH then ShowAdmin else SetHash(ADMIN_HASH))
    ensures e.ShowLogin? <==>
      hash != ADMIN_HASH && hash != EMPLOYEE_HASH && !SignedInAs(auth, EMPLOYEE_ROLE) && !SignedInAs(auth, ADMIN_ROLE)
    ensures e.ShowLogin? ==> e.locked == coolingDown
    ensures e.ShowAdmin? || e.ShowEmployee? ==> auth.isAuthed
    ensures e.ShowAdmin? <==> hash == ADMIN_HASH && auth.isAuthed && !SignedInAs(auth, EMPLOYEE_ROLE)
    ensures e.ShowEmployee? <==>
      hash == EMPLOYEE_HASH && auth.isAuthed && !SignedInAs(auth, EMPLOYEE_ROLE) && !SignedInAs(auth, ADMIN_ROLE)
  {
    if !auth.isAuthed && (hash == ADMIN_HASH || hash == EMPLOYEE_HASH) then SetHash(LOGIN_HASH)
    else if SignedInAs(auth, EMPLOYEE_ROLE) then LeaveFor(EMPLOYEE_HOME)
    else if SignedInAs(auth, ADMIN_ROLE) && hash != ADMIN_HASH then SetHash(ADMIN_HASH)
    else if hash == ADMIN_HASH then ShowAdmin
    else if hash == EMPLOYEE_HASH then ShowEmployee
    else ShowLogin(coolingDown)
  }

  /** The role of a signed-in session is not checked on this page: a session
      whose role is neither "admin" nor "employee" (a null role included) is
      shown both the admin and the employee view. */
  lemma UncheckedRoleOpensViews(auth: Auth, coolingDown: bool)
    requires auth.isAuthed && !SignedInAs(auth, ADMIN_ROLE) && !SignedInAs(auth, EMPLOYEE_ROLE)
    ensures Route(auth, ADMIN_HASH, coolingDown) == ShowAdmin
    ensures Route(auth, EMPLOYEE_HASH, coolingDown) == ShowEmployee
  {
  }

  /** Such a session comes from any live stored identity whose role field is
      missing, empty or another string, since `loadState()` copies the role
      without looking at it. */
  lemma StoredUncheckedRoleOpensAdminView(current: Session, e: Envelope, now: int)
    requires e.version == VERSION && e.auth.Some? && Live(e.auth.value, now)
    requires OrNull(e.auth.value.role) != Some(ADMIN_ROLE) && OrNull(e.auth.value.role) != Some(EMPLOYEE_ROLE)
    ensures var s := Load(current, Some(e), now);
      && s.auth.isAuthed
      && Route(s.auth, ADMIN_HASH, IsCoolingDown(s.abuse, now)) == ShowAdmin
  {
  }

  /** A redirect never leads to another redirect: the `hashchange` it fires
      makes `render()` show a view or leave the page. */
  lemma RouteSettles(auth: Auth, hash: string, coolingDown: bool, laterCooling: bool)
    requires Route(auth, hash, coolingDown).SetHash?
    ensures !Route(auth, Route(auth, hash, coolingDown).hash, laterCooling).SetHash?
  {
  }

  /** `render()`: record the route, then redirect, leave or show a view. */
  method Render(app: AppState, hash: string, now: int) returns (e: Effect)
    modifies app`route
    ensures app.route == CurrentHash(hash)
    ensures e == Route(app.AuthView(), app.route, IsCoolingDown(app.AbuseView(), now))
  {
    var h := CurrentHash(hash);
    app.route := h;
    if !app.isAuthed && (h == ADMIN_HASH || h == EMPLOYEE_HASH) {
      return SetHash(LOGIN_HASH);
    }
    if app.isAuthed {
      if app.role == Some(EMPLOYEE_ROLE) {
        return LeaveFor(EMPLOYEE_HOME);
      }
      if app.role == Some(ADMIN_ROLE) {
        if h != ADMIN_HASH {
          return SetHash(ADMIN_HASH);
        }
      }
    }
    if h == ADMIN_HASH {
      return ShowAdmin;
    }
    if h == EMPLOYEE_HASH {
      return ShowEmployee;
    }
    return ShowLogin(IsCoolingDown(app.AbuseView(), now));
  }

  /** What `onLoginSubmit` shows or where it goes once the state has changed. */
  function AfterSubmit(step: Step, hash: string, now: int): (e: Effect)
    ensures step.outcome == Granted(EMPLOYEE_ROLE) ==> e == LeaveFor(EMPLOYEE_HOME)
    ensures step.outcome == Granted(ADMIN_ROLE) ==> e == SetHash(ADMIN_HASH)
    ensures step.outcome == Incomplete || (step.outcome == Denied && !RendersAfter(step, now)) ==> e == CredentialsError
    ensures RendersAfter(step, now) ==>
      e == Route(step.next.auth, CurrentHash(hash), IsCoolingDown(step.next.abuse, now))
  {
    var render := Route(step.next.auth, CurrentHash(hash), IsCoolingDown(step.next.abuse, now));
    match step.outcome
    case Blocked => render
    case Incomplete => CredentialsError
    case Denied => if IsCoolingDown(step.next.abuse, now) then render else CredentialsError
    case Granted(role) => if role == EMPLOYEE_ROLE then LeaveFor(EMPLOYEE_HOME) else SetHash(ADMIN_HASH)
  }

  /** `onLoginSubmit(e)` with the form's current values. */
  method OnLoginSubmit(app: AppState, hash: string, inpName: string, inpEmpNo: string, inpPassword: string, now: int)
    returns (e: Effect)
    requires app.Valid()
    modifies app
    ensures app.Valid()
    ensures var step := Submit(old(app.State()), inpName, inpEmpNo, inpPassword, now);
      && app.State() == step.next
      && app.storage == StoredAfter(step, old(app.storage), now)
      && app.route == (if RendersAfter(step, now) then CurrentHash(hash) else old(app.route))
      && e == AfterSubmit(step, hash, now)
  {
    var outcome := app.SubmitCredentials(inpName, inpEmpNo, inpPassword, now);
    match outcome
    case Blocked =>
      e := Render(app, hash, now);
    case Incomplete =>
      e := CredentialsError;
    case Denied =>
      if IsCoolingDown(app.AbuseView(), now) {
        e := Render(app, hash, now);
      } else {
        e := CredentialsError;
      }
    case Granted(role) =>
      if role == EMPLOYEE_ROLE {
        e := LeaveFor(EMPLOYEE_HOME);
      } else {
        e := SetHash(ADMIN_HASH);
      }
  }

  /** Whatever name was typed, a fresh administrator login sets the admin
      hash, leaves no failure counted and then shows the admin view. */
  lemma AdminLogin(s: Session, name: string, hash: string, now: int)
    requires !IsCoolingDown(s.abuse, now) && SanitizeText(name) != ""
    ensures var step := Submit(s, name, ADMIN_EMP_NO, "admin", now);
      && step.outcome == Granted(ADMIN_ROLE)
      && step.next.auth == Auth(true, Some(ADMIN_ROLE), Some(SanitizeText(name)), Some(ADMIN_EMP_NO))
      && step.next.abuse == NoAbuse
      && AfterSubmit(step, hash, now) == SetHash(ADMIN_HASH)
      && Route(step.next.auth, ADMIN_HASH, false) == ShowAdmin
  {
    AdminEmpNoIsClean();
    var step := Submit(s, name, ADMIN_EMP_NO, "admin", now);
    assert DemoAuth(ADMIN_EMP_NO, "admin") == AuthResult(true, Some(ADMIN_ROLE));
    assert step == Step(Session(Auth(true, Some(ADMIN_ROLE), Some(SanitizeText(name)), Some(ADMIN_EMP_NO)), NoAbuse),
                        Granted(ADMIN_ROLE));
  }

  lemma AdminEmpNoIsClean()
    ensures SanitizeEmpNo(ADMIN_EMP_NO) == ADMIN_EMP_NO
  {
    assert AllDigits(ADMIN_EMP_NO);
    SanitizeEmpNoShape(ADMIN_EMP_NO);
  }

  // ------------------------------------------------- URL auto-login

  /** The result of `getLoginParamsFromUrl()`: `hasAny` says whether any of
      the three parameters is present at all. */
  datatype LoginParams = LoginParams(hasAny: bool, name: string, empNo: string, password: string)

  /** `getLoginParamsFromUrl()` given what `searchParams.get` returned for
      `name`, `empNo` and `password` (`None` for a missing parameter). */
  function ParamsFromQuery(name: Option<string>, empNo: Option<string>, password: Option<string>): (p: LoginParams)
    ensures p.hasAny <==> name.Some? || empNo.Some? || password.Some?
    ensures (p.name != "" ==> name.Some?) && (p.empNo != "" ==> empNo.Some?) && (p.password != "" ==> password.Some?)
    ensures p.name == SanitizeText(name.GetOr("")) && p.empNo == SanitizeEmpNo(empNo.GetOr(""))
    ensures p.password == password.GetOr("")
    ensures SanitizeText(p.name) == p.name && SanitizeEmpNo(p.empNo) == p.empNo
  {
    SanitizeTextIdempotent(name.GetOr(""));
    SanitizeEmpNoIdempotent(empNo.GetOr(""));
    LoginParams(
      name.Some? || empNo.Some? || password.Some?,
      SanitizeText(name.GetOr("")), SanitizeEmpNo(empNo.GetOr("")), password.GetOr(""))
  }

  /** Filling the form with the parsed parameters and submitting it decides
      exactly as submitting the raw query values would: the sanitising done
      while parsing is undone by nothing and repeated harmlessly. */
  lemma {:induction false} PrefillIsTransparent(s: Session, qName: string, qEmpNo: string, qPassword: string, now: int)
    ensures var p := ParamsFromQuery(Some(qName), Some(qEmpNo), Some(qPassword));
      Submit(s, p.name, p.empNo, p.password, now) == Submit(s, qName, qEmpNo, qPassword, now)
  {
    SanitizeTextIdempotent(qName);
    SanitizeEmpNoIdempotent(qEmpNo);
  }

  /** The branch `tryAutoLoginFromUrlParams()` takes. */
  datatype AutoLogin =
    | Skip               // already signed in, or no parameter present
    | PrefillOnly        // form filled, some value empty: generic error
    | PrefillAndRender   // form filled, a cooldown is running: `render()`
    | PrefillAndSubmit   // form filled and submitted

  function DecideAutoLogin(isAuthed: bool, p: LoginParams, coolingDown: bool): (d: AutoLogin)
    ensures d == PrefillAndSubmit <==>
      !isAuthed && p.hasAny && p.name != "" && p.empNo != "" && p.password != "" && !coolingDown
    ensures d == Skip <==> isAuthed || !p.hasAny
    ensures d == PrefillAndRender ==> coolingDown
    ensures d == PrefillOnly <==> !isAuthed && p.hasAny && (p.name == "" || p.empNo == "" || p.password == "")
    ensures d == PrefillAndRender <==>
      !isAuthed && p.hasAny && p.name != "" && p.empNo != "" && p.password != "" && coolingDown
  {
    if isAuthed || !p.hasAny then Skip
    else if !(p.name != "" && p.empNo != "" && p.password != "") then PrefillOnly
    else if coolingDown then PrefillAndRender
    else PrefillAndSubmit
  }

  /** `tryAutoLoginFromUrlParams()`: `prefill` is what is written into the
      form fields, if anything. */
  method TryAutoLogin(app: AppState, hash: string, qName: Option<string>, qEmpNo: Option<string>,
                      qPassword: Option<string>, now: int)
    returns (prefill: Option<LoginParams>, e: Effect)
    requires app.Valid()
    modifies app
    ensures app.Valid()
    ensures var p := ParamsFromQuery(qName, qEmpNo, qPassword);
      var d := DecideAutoLogin(old(app.isAuthed), p, IsCoolingDown(old(app.AbuseView()), now));
      && (prefill == if d == Skip then None else Some(p))
      && (d == Skip ==> e == NoEffect)
      && (d == PrefillOnly ==> e == CredentialsError)
      && (d == PrefillAndRender ==> e == Route(old(app.AuthView()), CurrentHash(hash), true))
      && (d != PrefillAndSubmit ==> app.State() == old(app.State()) && app.storage == old(app.storage))
      && (d == Skip || d == PrefillOnly ==> app.route == old(app.route))
      && (d == PrefillAndRender ==> app.route == CurrentHash(hash))
      && (d == PrefillAndSubmit ==>
            var step := Submit(old(app.State()), p.name, p.empNo, p.password, now);
            && app.State() == step.next
            && app.storage == StoredAfter(step, old(app.storage), now)
            && app.route == (if RendersAfter(step, now) then CurrentHash(hash) else old(app.route))
            && e == AfterSubmit(step, hash, now))
  {
    if app.isAuthed {
      return None, NoEffect;
    }
    var p := ParamsFromQuery(qName, qEmpNo, qPassword);
    if !p.hasAny {
      return None, NoEffect;
    }
    prefill := Some(p);
    var canAuto := p.name != "" && p.empNo != "" && p.password != "";
    if !canAuto {
      e := CredentialsError;
      return;
    }
    if IsCoolingDown(app.AbuseView(), now) {
      e := Render(app, hash, now);
      return;
    }
    e := OnLoginSubmit(app, hash, p.name, p.empNo, p.password, now);
  }

  /** Query parameters that satisfy the employee rule sign a signed-out
      visitor in without a form submission and send them to the employee
      area; the identity stored is exactly the sanitised parameters. */
  lemma AutoLoginEmployee(s: Session, qName: string, qEmpNo: string, hash: string, now: int)
    requires !s.auth.isAuthed && !IsCoolingDown(s.abuse, now)
    requires SanitizeText(qName) != "" && SanitizeEmpNo(qEmpNo) != "" && SanitizeEmpNo(qEmpNo) != ADMIN_EMP_NO
    ensures var p := ParamsFromQuery(Some(qName), Some(qEmpNo), Some("employee"));
      var step := Submit(s, p.name, p.empNo, p.password, now);
      && DecideAutoLogin(false, p, false) == PrefillAndSubmit
      && step.outcome == Granted(EMPLOYEE_ROLE)
      && step.next.auth == Auth(true, Some(EMPLOYEE_ROLE), Some(SanitizeText(qName)), Some(SanitizeEmpNo(qEmpNo)))
      && AfterSubmit(step, hash, now) == LeaveFor(EMPLOYEE_HOME)
  {
  }

  // ------------------------------------------------------------ start-up

  /** `init()` once the handlers are attached: load the stored session; a
      signed-in employee leaves at once; otherwise an empty hash becomes
      #login, the page renders, and the URL parameters are tried. A hash the
      first render writes is in `location.hash` at once, so the auto-login
      step reads it (its `hashchange` event comes later). The returned
      effects are in the order the page performs them. */
  method Init(app: AppState, hash: string, qName: Option<string>, qEmpNo: Option<string>,
              qPassword: Option<string>, now: int)
    returns (effects: seq<Effect>)
    requires app.Valid()
    modifies app
    ensures app.Valid()
    ensures var loaded := Load(old(app.State()), old(app.storage), now);
      SignedInAs(loaded.auth, EMPLOYEE_ROLE) ==>
        && effects == [LeaveFor(EMPLOYEE_HOME)]
        && app.State() == loaded && app.storage == old(app.storage) && app.route == old(app.route)
    ensures var loaded := Load(old(app.State()), old(app.storage), now);
      var cooling := IsCoolingDown(loaded.abuse, now);
      var first := Route(loaded.auth, CurrentHash(hash), cooling);
      var later := if first.SetHash? then first.hash else CurrentHash(hash);
      var p := ParamsFromQuery(qName, qEmpNo, qPassword);
      var d := DecideAutoLogin(loaded.auth.isAuthed, p, cooling);
      var step := Submit(loaded, p.name, p.empNo, p.password, now);
      !SignedInAs(loaded.auth, EMPLOYEE_ROLE) ==>
        && |effects| >= 2
        && effects[..|effects| - 1] == (if hash == "" then [SetHash(LOGIN_HASH)] else []) + [first]
        && app.route ==
             (if d == PrefillAndRender || (d == PrefillAndSubmit && RendersAfter(step, now)) then later
              else CurrentHash(hash))
        && (d == Skip ==> effects[|effects| - 1] == NoEffect)
        && (d == PrefillOnly ==> effects[|effects| - 1] == CredentialsError)
        && (d == PrefillAndRender ==> effects[|effects| - 1] == Route(loaded.auth, later, true))
        && (d != PrefillAndSubmit ==> app.State() == loaded && app.storage == old(app.storage))
        && (d == PrefillAndSubmit ==>
              && app.State() == step.next
              && app.storage == StoredAfter(step, old(app.storage), now)
              && effects[|effects| - 1] == AfterSubmit(step, later, now))
  {
    ghost var loaded := Load(app.State(), app.storage, now);
    app.LoadState(now);
    assert app.State() == loaded;
    if app.isAuthed && app.role == Some(EMPLOYEE_ROLE) {
      return [LeaveFor(EMPLOYEE_HOME)];
    }
    var h := hash;
    effects := [];
    if h == "" {
      h := LOGIN_HASH;
      effects := [SetHash(LOGIN_HASH)];
    }
    assert h == CurrentHash(hash);
    var shown := Render(app, h, now);
    assert app.State() == loaded && shown == Route(loaded.auth, h, IsCoolingDown(loaded.abuse, now));
    if shown.SetHash? {
      h := shown.hash;
    }
    var prefill, auto := TryAutoLogin(app, h, qName, qEmpNo, qPassword, now);
    effects := effects + [shown, auto];
  }

  /** A signed-out visitor who opens a protected hash with a complete set of
      URL parameters while a cooldown runs is first sent to #login and then,
      in the same start-up, shown the locked login view on it. */
  lemma ProtectedHashDuringCooldownShowsLockedLogin(auth: Auth, hash: string, p: LoginParams)
    requires !auth.isAuthed && (hash == ADMIN_HASH || hash == EMPLOYEE_HASH)
    requires p.hasAny && p.name != "" && p.empNo != "" && p.password != ""
    ensures Route(auth, hash, true) == SetHash(LOGIN_HASH)
    ensures DecideAutoLogin(false, p, true) == PrefillAndRender
    ensures Route(auth, Route(auth, hash, true).hash, true) == ShowLogin(true)
  {
  }

  /** A page load with valid employee parameters in the URL and no stored
      session signs the visitor in and leaves for the employee area. */
  lemma FreshLoadWithEmployeeParams(qName: string, qEmpNo: string, now: int)
    requires 0 <= now
    requires SanitizeText(qName) != "" && SanitizeEmpNo(qEmpNo) != "" && SanitizeEmpNo(qEmpNo) != ADMIN_EMP_NO
    ensures var loaded := Load(Cleared, None, now);
      var p := ParamsFromQuery(Some(qName), Some(qEmpNo), Some("employee"));
      && !SignedInAs(loaded.auth, EMPLOYEE_ROLE)
      && DecideAutoLogin(loaded.auth.isAuthed, p, IsCoolingDown(loaded.abuse, now)) == PrefillAndSubmit
      && AfterSubmit(Submit(loaded, p.name, p.empNo, p.password, now), "", now) == LeaveFor(EMPLOYEE_HOME)
  {
    AutoLoginEmployee(Cleared, qName, qEmpNo, "", now);
  }
}
