/**
 * The state machine shared by both login pages: the `APP_STATE` object and
 * the storage slot, the handlers that update them (`loadState`,
 * `persistState`, `clearState`, `bumpFail`, the credential part of
 * `onLoginSubmit`, `onLogout`), and the navigation effects the pages produce.
 * `Date.now()` is the parameter `now`.
 */
module LoginController {
  import opened Wrappers
  import opened Sanitize
  import opened Credentials
  import opened AbuseGuard
  import opened SessionStore

  const LOGIN_HASH: string := "#login"
  const ADMIN_HASH: string := "#admin"
  const EMPLOYEE_HASH: string := "#employee"
  /** The employee area outside the login page (`goToEmployeeHome`). */
  const EMPLOYEE_HOME: string := "../employee/home.html"

  /** What a handler does to the page. */
  datatype Effect =
    | SetHash(hash: string)       // `window.location.hash = hash`; a change fires `render` again
    | LeaveFor(url: string)       // `window.location.assign(url)`
    | ShowLogin(locked: bool)     // login view; its controls disabled while cooling down
    | ShowAdmin                   // admin view
    | ShowEmployee                // employee view
    | CredentialsError            // the generic "wrong credentials" message only
    | NoEffect

  /** `window.location.hash || "#login"`. */
  function CurrentHash(hash: string): (h: string)
    ensures h != ""
    ensures hash == "" ==> h == LOGIN_HASH
    ensures hash != "" ==> h == hash
  {
    if hash == "" then LOGIN_HASH else hash
  }

  /** How far a login submission got. */
  datatype SubmitOutcome =
    | Blocked              // a cooldown is running; nothing was read
    | Incomplete           // a sanitised field was empty
    | Denied               // `demoAuth` said no; one failure was counted
    | Granted(role: string)

  datatype Step = Step(next: Session, outcome: SubmitOutcome)

  /** The state change of `onLoginSubmit` for the raw form values. */
  function Submit(s: Session, rawName: string, rawEmpNo: string, password: string, now: int): (r: Step)
    ensures r.outcome == Blocked <==> IsCoolingDown(s.abuse, now)
    ensures r.outcome == Incomplete <==>
      !IsCoolingDown(s.abuse, now) && (SanitizeText(rawName) == "" || SanitizeEmpNo(rawEmpNo) == "" || password == "")
    ensures r.outcome == Blocked || r.outcome == Incomplete ==> r.next == s
    ensures r.outcome == Denied ==>
      !DemoAuth(SanitizeEmpNo(rawEmpNo), password).ok && r.next == Session(s.auth, BumpFail(s.abuse, now))
    ensures r.outcome.Granted? ==>
      && DemoAuth(SanitizeEmpNo(rawEmpNo), password) == AuthResult(true, Some(r.outcome.role))
      && r.next == Session(Auth(true, Some(r.outcome.role), Some(SanitizeText(rawName)), Some(SanitizeEmpNo(rawEmpNo))), NoAbuse)
    ensures Consistent(s.auth) ==> Consistent(r.next.auth)
  {
    if IsCoolingDown(s.abuse, now) then Step(s, Blocked)
    else
      var name := SanitizeText(rawName);
      var empNo := SanitizeEmpNo(rawEmpNo);
      if name == "" || empNo == "" || password == "" then Step(s, Incomplete)
      else
        var res := DemoAuth(empNo, password);
        if !res.ok then Step(Session(s.auth, BumpFail(s.abuse, now)), Denied)
        else Step(Session(Auth(true, res.role, Some(name), Some(empNo)), NoAbuse), Granted(res.role.value))
  }

  /** What the storage slot holds after a submission: both a counted failure
      and a success are persisted. */
  function StoredAfter(step: Step, old_storage: Option<Envelope>, now: int): (r: Option<Envelope>)
    ensures step.outcome == Blocked || step.outcome == Incomplete ==> r == old_storage
    ensures step.outcome == Denied || step.outcome.Granted? ==> r == Some(Encode(step.next, now))
  {
    if step.outcome == Denied || step.outcome.Granted? then Some(Encode(step.next, now)) else old_storage
  }

  /** After these submissions `onLoginSubmit` calls `render()`: the form was
      refused during a cooldown, or the failure it counted started one. */
  predicate RendersAfter(step: Step, now: int) {
    step.outcome == Blocked || (step.outcome == Denied && IsCoolingDown(step.next.abuse, now))
  }

  /** Login submissions, one per element, each with its own clock reading. */
  datatype Attempt = Attempt(name: string, empNo: string, password: string, now: int)

  function SubmitAll(s: Session, xs: seq<Attempt>): Session
    decreases |xs|
  {
    if xs == [] then s
    else SubmitAll(Submit(s, xs[0].name, xs[0].empNo, xs[0].password, xs[0].now).next, xs[1..])
  }

  /** A complete form with credentials `demoAuth` refuses, sent at or after `cooldownUntil`. */
  predicate WrongAttempt(x: Attempt, cooldownUntil: int) {
    && SanitizeText(x.name) != "" && SanitizeEmpNo(x.empNo) != "" && x.password != ""
    && !DemoAuth(SanitizeEmpNo(x.empNo), x.password).ok
    && x.now >= cooldownUntil
  }

  /** Wrong submissions below the limit only count up; the identity is untouched. */
  lemma {:induction false} WrongAttemptsCount(s: Session, xs: seq<Attempt>)
    requires 0 <= s.abuse.attempts && s.abuse.attempts + |xs| < MAX_FAILS
    requires forall i :: 0 <= i < |xs| ==> WrongAttempt(xs[i], s.abuse.cooldownUntil)
    ensures SubmitAll(s, xs) == Session(s.auth, Abuse(s.abuse.attempts + |xs|, s.abuse.cooldownUntil))
    decreases |xs|
  {
    if xs != [] {
      var next := Submit(s, xs[0].name, xs[0].empNo, xs[0].password, xs[0].now).next;
      assert next == Session(s.auth, Abuse(s.abuse.attempts + 1, s.abuse.cooldownUntil));
      WrongAttemptsCount(next, xs[1..]);
    }
  }

  /** Five wrong submissions in a row from a zero count lock the form: the
      count is back at 0, and a sixth submission within 30 s of the fifth is
      refused before its credentials are looked at, with at most 30 s left. */
  lemma {:induction false} FiveWrongAttemptsLockOut(s: Session, xs: seq<Attempt>, sixth: Attempt)
    requires s.abuse.attempts == 0 && |xs| == MAX_FAILS
    requires forall i :: 0 <= i < |xs| ==> WrongAttempt(xs[i], s.abuse.cooldownUntil)
    requires xs[MAX_FAILS - 1].now <= sixth.now < xs[MAX_FAILS - 1].now + COOLDOWN_MS
    ensures SubmitAll(s, xs) == Session(s.auth, Abuse(0, xs[MAX_FAILS - 1].now + COOLDOWN_MS))
    ensures Submit(SubmitAll(s, xs), sixth.name, sixth.empNo, sixth.password, sixth.now).outcome == Blocked
    ensures 0 < RemainingCooldownMs(SubmitAll(s, xs).abuse, sixth.now) <= COOLDOWN_MS
  {
    var first := xs[..MAX_FAILS - 1];
    var last := xs[MAX_FAILS - 1];
    WrongAttemptsCount(s, first);
    SubmitAllSplit(s, first, [last]);
    assert first + [last] == xs;
    var mid := SubmitAll(s, first);
    assert mid.abuse.attempts == MAX_FAILS - 1;
    assert SubmitAll(mid, [last]) == Submit(mid, last.name, last.empNo, last.password, last.now).next;
  }

  lemma {:induction false} SubmitAllSplit(s: Session, xs: seq<Attempt>, ys: seq<Attempt>)
    ensures SubmitAll(s, xs + ys) == SubmitAll(SubmitAll(s, xs), ys)
    decreases |xs|
  {
    if xs == [] {
      assert xs + ys == ys;
    } else {
      assert (xs + ys)[0] == xs[0] && (xs + ys)[1..] == xs[1..] + ys;
      SubmitAllSplit(Submit(s, xs[0].name, xs[0].empNo, xs[0].password, xs[0].now).next, xs[1..], ys);
    }
  }

  /** `APP_STATE` together with the `sessionStorage` slot it is saved in. */
  class AppState {
    var route: string
    var isAuthed: bool
    var role: Option<string>
    var displayName: Option<string>
    var empNo: Option<string>
    var attempts: int
    var cooldownUntil: int
    var storage: Option<Envelope>

    function AuthView(): Auth
      reads this
    {
      Auth(isAuthed, role, displayName, empNo)
    }

    function AbuseView(): Abuse
      reads this
    {
      Abuse(attempts, cooldownUntil)
    }

    function State(): Session
      reads this
    {
      Session(AuthView(), AbuseView())
    }

    ghost predicate Valid()
      reads this
    {
      Consistent(AuthView())
    }

    /** The initial `APP_STATE`; `storage` is what the slot holds at page load. */
    constructor (storage: Option<Envelope>)
      ensures Valid()
      ensures State() == Cleared && route == LOGIN_HASH && this.storage == storage
    {
      route := LOGIN_HASH;
      isAuthed, role, displayName, empNo := false, None, None, None;
      attempts, cooldownUntil := 0, 0;
      this.storage := storage;
    }

    /** `persistState()`: a write to storage that cannot fail in this model. */
    method PersistState(now: int)
      modifies this`storage
      ensures storage == Some(Encode(State(), now))
    {
      var expiresAt := if isAuthed then now + SESSION_TTL_MS else 0;
      storage := Some(Envelope(VERSION, now, Some(StoredAuth(isAuthed, role, displayName, empNo, expiresAt)),
                               Some(attempts), Some(cooldownUntil)));
    }

    /** `loadState()`. */
    method LoadState(now: int)
      requires Valid()
      modifies this
      ensures Valid()
      ensures State() == Load(old(State()), storage, now)
      ensures storage == old(storage) && route == old(route)
    {
      if storage.None? { return; }
      var data := storage.value;
      if data.version != VERSION { return; }
      if data.attempts.Some? { attempts := data.attempts.value; }
      if data.cooldownUntil.Some? { cooldownUntil := data.cooldownUntil.value; }
      if data.auth.Some? && data.auth.value.isAuthed && data.auth.value.expiresAt != 0 && data.auth.value.expiresAt > now {
        var a := data.auth.value;
        isAuthed := true;
        role := OrNull(a.role);
        displayName := OrNull(a.displayName);
        empNo := OrNull(a.empNo);
      } else {
        isAuthed := false;
        role := None;
        displayName := None;
        empNo := None;
      }
    }

    /** `clearState()`: sign out, forget the failures, remove the stored blob. */
    method ClearState()
      modifies this
      ensures Valid()
      ensures State() == Cleared && storage == None && route == old(route)
    {
      isAuthed := false;
      role := None;
      displayName := None;
      empNo := None;
      attempts := 0;
      cooldownUntil := 0;
      storage := None;
    }

    /** `bumpFail()`: count the failure, maybe start the cooldown, persist. */
    method BumpFail(now: int)
      modifies this
      ensures AuthView() == old(AuthView()) && route == old(route)
      ensures AbuseView() == AbuseGuard.BumpFail(old(AbuseView()), now)
      ensures storage == Some(Encode(State(), now))
    {
      attempts := attempts + 1;
      if attempts >= MAX_FAILS {
        cooldownUntil := now + COOLDOWN_MS;
        attempts := 0;
      }
      PersistState(now);
    }

    /** The state-changing part of `onLoginSubmit`, up to its final redirect. */
    method SubmitCredentials(inpName: string, inpEmpNo: string, inpPassword: string, now: int)
      returns (outcome: SubmitOutcome)
      requires Valid()
      modifies this
      ensures Valid() && route == old(route)
      ensures var step := Submit(old(State()), inpName, inpEmpNo, inpPassword, now);
        && outcome == step.outcome && State() == step.next
        && storage == StoredAfter(step, old(storage), now)
    {
      ghost var before := State();
      if IsCoolingDown(AbuseView(), now) {
        return Blocked;
      }
      var name := SanitizeText(inpName);
      var empNo := SanitizeEmpNo(inpEmpNo);
      var password := inpPassword;
      if name == "" || empNo == "" || password == "" {
        return Incomplete;
      }
      var res := DemoAuth(empNo, password);
      if !res.ok {
        assert Submit(before, inpName, inpEmpNo, inpPassword, now) == Step(Session(before.auth, AbuseGuard.BumpFail(before.abuse, now)), Denied);
        BumpFail(now);
        return Denied;
      }
      assert Submit(before, inpName, inpEmpNo, inpPassword, now)
        == Step(Session(Auth(true, res.role, Some(name), Some(empNo)), NoAbuse), Granted(res.role.value));
      isAuthed := true;
      role := res.role;
      displayName := Some(name);
      this.empNo := Some(empNo);
      attempts := 0;
      cooldownUntil := 0;
      PersistState(now);
      outcome := Granted(res.role.value);
    }

    /** `onLogout()`: clear everything and go to the login view. */
    method OnLogout() returns (e: Effect)
      modifies this
      ensures Valid()
      ensures State() == Cleared && !isAuthed && storage == None && route == old(route)
      ensures e == SetHash(LOGIN_HASH)
    {
      ClearState();
      e := SetHash(LOGIN_HASH);
    }
  }
}
