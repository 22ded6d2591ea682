/**
 * The login page of UI/UI/UI-03-APP.js: every redirect goes through
 * `routeForRole`, so an administrator is kept on #admin and an employee on
 * #employee inside this page.
 */
module LoginPageV1 {
  import opened Wrappers
  import opened Sanitize
  import opened Credentials
  import opened AbuseGuard
  import opened SessionStore
  import opened LoginController

  /** `demoAuth(name, empNo, password)`: the name plays no part. */
  function DemoAuth(name: string, empNo: string, password: string): (r: AuthResult)
    ensures r.role == Some(ADMIN_ROLE) <==> empNo == ADMIN_EMP_NO && password == "admin"
    ensures r.role == Some(EMPLOYEE_ROLE) <==> empNo != ADMIN_EMP_NO && password == "employee"
    ensures r.ok <==> r.role.Some?
    ensures r == Credentials.DemoAuth(empNo, password)
  {
    Credentials.DemoAuth(empNo, password)
  }

  /** `routeForRole(role)`: the home hash of a role; #login for anything else. */
  function RouteForRole(role: Option<string>): (h: string)
    ensures h == ADMIN_HASH <==> role == Some(ADMIN_ROLE)
    ensures h == EMPLOYEE_HASH <==> role == Some(EMPLOYEE_ROLE)
    ensures h == LOGIN_HASH <==> role != Some(ADMIN_ROLE) && role != Some(EMPLOYEE_ROLE)
  {
    if role == Some(ADMIN_ROLE) then ADMIN_HASH
    else if role == Some(EMPLOYEE_ROLE) then EMPLOYEE_HASH
    else LOGIN_HASH
  }

  predicate KnownRole(role: Option<string>) {
    role == Some(ADMIN_ROLE) || role == Some(EMPLOYEE_ROLE)
  }

  predicate PageHash(hash: string) {
    hash == LOGIN_HASH || hash == ADMIN_HASH || hash == EMPLOYEE_HASH
  }

  /** The decision `render()` takes for the (defaulted) hash `hash`. */
  function Route(auth: Auth, hash: string, coolingDown: bool): (e: Effect)
    ensures !auth.isAuthed && (hash == ADMIN_HASH || hash == EMPLOYEE_HASH) ==> e == SetHash(LOGIN_HASH)
    ensures auth.isAuthed && PageHash(hash) && hash != RouteForRole(auth.role) ==> e == SetHash(RouteForRole(auth.role))
    ensures auth.isAuthed && hash == LOGIN_HASH ==> e == SetHash(RouteForRole(auth.role))
    ensures e.ShowAdmin? <==> hash == ADMIN_HASH && auth.isAuthed && auth.role == Some(ADMIN_ROLE)
    ensures e.ShowEmployee? <==> hash == EMPLOYEE_HASH && auth.isAuthed && auth.role == Some(EMPLOYEE_ROLE)
    ensures !PageHash(hash) ==> e == ShowLogin(coolingDown)
    ensures !auth.isAuthed && hash == LOGIN_HASH ==> e == ShowLogin(coolingDown)
  {
    if !auth.isAuthed && (hash == ADMIN_HASH || hash == EMPLOYEE_HASH) then SetHash(LOGIN_HASH)
    else
      var correct := RouteForRole(auth.role);
      if auth.isAuthed && (hash == ADMIN_HASH || hash == EMPLOYEE_HASH) && hash != correct then SetHash(correct)
      else if auth.isAuthed && hash == LOGIN_HASH then SetHash(correct)
      else if hash == ADMIN_HASH then ShowAdmin
      else if hash == EMPLOYEE_HASH then ShowEmployee
      else ShowLogin(coolingDown)
  }

  /** On the page's own hashes, a signed-in administrator or employee is never
      shown the login view, and is shown the view of their own role once the
      redirect has happened. */
  lemma SignedInNeverSeesLogin(auth: Auth, hash: string, coolingDown: bool)
    requires auth.isAuthed && KnownRole(auth.role) && PageHash(hash)
    ensures !Route(auth, hash, coolingDown).ShowLogin?
    ensures Route(auth, RouteForRole(auth.role), coolingDown)
      == (if auth.role == Some(ADMIN_ROLE) then ShowAdmin else ShowEmployee)
  {
  }

  /** Any other hash (for example #tasks) shows the login view, whoever is
      signed in. */
  lemma OtherHashShowsLogin(auth: Auth, hash: string, coolingDown: bool)
    requires !PageHash(hash)
    ensures Route(auth, hash, coolingDown) == ShowLogin(coolingDown)
  {
  }

  /** A stored session whose role is neither "admin" nor "employee" is
      accepted by `loadState()`; on #login `render()` then writes #login to
      the hash again, which fires no `hashchange`, and shows no view. */
  lemma UnknownRoleStaysOnLoginHash(auth: Auth, coolingDown: bool)
    requires auth.isAuthed && !KnownRole(auth.role)
    ensures Route(auth, LOGIN_HASH, coolingDown) == SetHash(LOGIN_HASH)
    ensures Route(auth, ADMIN_HASH, coolingDown) == SetHash(LOGIN_HASH)
  {
  }

  /** For a signed-out visitor or a known role, the hash a redirect writes
      is one `render()` then shows a view for. */
  lemma RouteSettles(auth: Auth, hash: string, coolingDown: bool, laterCooling: bool)
    requires !auth.isAuthed || KnownRole(auth.role)
    requires Route(auth, hash, coolingDown).SetHash?
    ensures !Route(auth, Route(auth, hash, coolingDown).hash, laterCooling).SetHash?
  {
  }

  /** `render()`: record the route, then redirect or show a view. */
  method Render(app: AppState, hash: string, now: int) returns (e: Effect)
    modifies app`route
    ensures app.route == CurrentHash(hash)
    ensures e == Route(app.AuthView(), app.route, IsCoolingDown(app.AbuseView(), now))
  {
    var h := CurrentHash(hash);
    app.route := h;
    if !app.isAuthed && (h == ADMIN_HASH || h == EMPLOYEE_HASH) {
      return SetHash(LOGIN_HASH);
    }
    if app.isAuthed {
      var correct := RouteForRole(app.role);
      if (h == ADMIN_HASH || h == EMPLOYEE_HASH) && h != correct {
        return SetHash(correct);
      }
      if h == LOGIN_HASH {
        return SetHash(correct);
      }
    }
    if h == ADMIN_HASH {
      return ShowAdmin;
    }
    if h == EMPLOYEE_HASH {
      return ShowEmployee;
    }
    return ShowLogin(IsCoolingDown(app.AbuseView(), now));
  }

  /** What `onLoginSubmit` shows or where it goes once the state has changed. */
  function AfterSubmit(step: Step, hash: string, now: int): (e: Effect)
    ensures step.outcome.Granted? ==> e == SetHash(RouteForRole(Some(step.outcome.role)))
    ensures step.outcome == Incomplete || (step.outcome == Denied && !RendersAfter(step, now)) ==> e == CredentialsError
    ensures RendersAfter(step, now) ==>
      e == Route(step.next.auth, CurrentHash(hash), IsCoolingDown(step.next.abuse, now))
  {
    var render := Route(step.next.auth, CurrentHash(hash), IsCoolingDown(step.next.abuse, now));
    match step.outcome
    case Blocked => render
    case Incomplete => CredentialsError
    case Denied => if IsCoolingDown(step.next.abuse, now) then render else CredentialsError
    case Granted(role) => SetHash(RouteForRole(Some(role)))
  }

  /** `onLoginSubmit(e)` with the form's current values. */
  method OnLoginSubmit(app: AppState, hash: string, inpName: string, inpEmpNo: string, inpPassword: string, now: int)
    returns (e: Effect)
    requires app.Valid()
    modifies app
    ensures app.Valid()
    ensures var step := Submit(old(app.State()), inpName, inpEmpNo, inpPassword, now);
      && app.State() == step.next
      && app.storage == StoredAfter(step, old(app.storage), now)
      && app.route == (if RendersAfter(step, now) then CurrentHash(hash) else old(app.route))
      && e == AfterSubmit(step, hash, now)
  {
    var outcome := app.SubmitCredentials(inpName, inpEmpNo, inpPassword, now);
    match outcome
    case Blocked =>
      e := Render(app, hash, now);
    case Incomplete =>
      e := CredentialsError;
    case Denied =>
      if IsCoolingDown(app.AbuseView(), now) {
        e := Render(app, hash, now);
      } else {
        e := CredentialsError;
      }
    case Granted(role) =>
      e := SetHash(RouteForRole(Some(role)));
  }

  /** A successful login lands on the view of the role `demoAuth` gave:
      the hash it writes is one `render()` shows that role's view for. */
  lemma GrantedLandsOnOwnView(s: Session, name: string, empNo: string, password: string, hash: string, now: int)
    requires Submit(s, name, empNo, password, now).outcome.Granted?
    ensures var step := Submit(s, name, empNo, password, now);
      var target := AfterSubmit(step, hash, now).hash;
      && step.next.abuse == NoAbuse
      && Route(step.next.auth, target, false) == (if step.outcome.role == ADMIN_ROLE then ShowAdmin else ShowEmployee)
  {
  }

  // ------------------------------------------------------------ start-up

  /** `init()` once the handlers are attached: load the stored session; send
      a signed-in user to their role's hash, or an empty hash to #login; then
      render. The returned effects are in the order the page performs them. */
  method Init(app: AppState, hash: string, now: int) returns (effects: seq<Effect>)
    requires app.Valid()
    modifies app
    ensures app.Valid()
    ensures var loaded := Load(old(app.State()), old(app.storage), now);
      var target := if loaded.auth.isAuthed then RouteForRole(loaded.auth.role) else CurrentHash(hash);
      && app.State() == loaded && app.storage == old(app.storage)
      && app.route == target
      && effects ==
           (if loaded.auth.isAuthed || hash == "" then [SetHash(target)] else [])
           + [Route(loaded.auth, target, IsCoolingDown(loaded.abuse, now))]
  {
    app.LoadState(now);
    var h := hash;
    effects := [];
    if app.isAuthed {
      h := RouteForRole(app.role);
      effects := [SetHash(h)];
    } else if h == "" {
      h := LOGIN_HASH;
      effects := [SetHash(h)];
    }
    var shown := Render(app, h, now);
    effects := effects + [shown];
  }

  /** Reloading the page within the session's lifetime keeps a signed-in
      administrator or employee on their own view, whatever hash the reload
      started from. */
  lemma {:induction false} RefreshKeepsOwnView(s: Session, current: Session, t: int, now: int, coolingDown: bool)
    requires Consistent(s.auth) && s.auth.isAuthed && KnownRole(s.auth.role)
    requires 0 <= t <= now < t + SESSION_TTL_MS
    ensures var loaded := Load(current, Some(Encode(s, t)), now);
      Route(loaded.auth, RouteForRole(loaded.auth.role), coolingDown)
        == (if s.auth.role == Some(ADMIN_ROLE) then ShowAdmin else ShowEmployee)
  {
    PersistThenLoad(s, current, t, now);
    SignedInNeverSeesLogin(s.auth, LOGIN_HASH, coolingDown);
  }
}
