/**
 * The session envelope kept in the single `sessionStorage` slot
 * ("AO-001_LOGIN_V1"): `persistState` encodes the in-memory state into it and
 * `loadState` decodes and validates it. The slot is modelled as an
 * `Option<Envelope>`; `None` stands for a missing item, for text that is not
 * JSON and for a JSON `null`, all of which `loadState` ignores.
 */
module SessionStore {
  import opened Wrappers
  import opened AbuseGuard

  const VERSION: int := 1
  const SESSION_TTL_MS: int := 6 * 60 * 60 * 1000

  /** `APP_STATE.auth` (the `pinRequired` hook is always false and is left out). */
  datatype Auth = Auth(isAuthed: bool, role: Option<string>, displayName: Option<string>, empNo: Option<string>)

  const SignedOut: Auth := Auth(false, None, None, None)

  /** The part of `APP_STATE` that the envelope carries. */
  datatype Session = Session(auth: Auth, abuse: Abuse)

  /** The state of a fresh page, and the state after `clearState()`. */
  const Cleared: Session := Session(SignedOut, NoAbuse)

  /** `payload.auth`; an `expiresAt` of 0 also stands for a missing one. */
  datatype StoredAuth = StoredAuth(
    isAuthed: bool, role: Option<string>, displayName: Option<string>, empNo: Option<string>, expiresAt: int)

  /** The JSON payload `{ v, savedAt, auth, abuse }`. `auth` is `None` when
      missing; an abuse field is `None` when it (or `abuse`) is missing or is
      not a number. */
  datatype Envelope = Envelope(
    version: int, savedAt: int, auth: Option<StoredAuth>, attempts: Option<int>, cooldownUntil: Option<int>)

  /** A string field is either absent or non-empty. */
  predicate NonEmptyOrNull(o: Option<string>) {
    o != Some("")
  }

  /** The shape every reachable `APP_STATE.auth` has: signed out means all
      fields null, and no field holds an empty string. */
  predicate Consistent(a: Auth) {
    && (!a.isAuthed ==> a == SignedOut)
    && NonEmptyOrNull(a.role) && NonEmptyOrNull(a.displayName) && NonEmptyOrNull(a.empNo)
  }

  /** JavaScript `x || null` on a stored string: the empty string reads as null. */
  function OrNull(o: Option<string>): (r: Option<string>)
    ensures r == None <==> o == None || o == Some("")
    ensures r.Some? ==> r == o
    ensures NonEmptyOrNull(r)
  {
    if o == Some("") then None else o
  }

  /** The payload `persistState()` writes at time `now`. */
  function Encode(s: Session, now: int): (e: Envelope)
    ensures e.version == VERSION && e.savedAt == now
    ensures e.auth.Some? && e.auth.value.isAuthed == s.auth.isAuthed
    ensures e.auth.value.role == s.auth.role && e.auth.value.displayName == s.auth.displayName
    ensures e.auth.value.empNo == s.auth.empNo
    ensures e.attempts == Some(s.abuse.attempts) && e.cooldownUntil == Some(s.abuse.cooldownUntil)
    ensures s.auth.isAuthed ==> e.auth.value.expiresAt - now == SESSION_TTL_MS
    ensures !s.auth.isAuthed ==> e.auth.value.expiresAt == 0
  {
    Envelope(
      VERSION, now,
      Some(StoredAuth(s.auth.isAuthed, s.auth.role, s.auth.displayName, s.auth.empNo,
                      if s.auth.isAuthed then now + SESSION_TTL_MS else 0)),
      Some(s.abuse.attempts), Some(s.abuse.cooldownUntil))
  }

  /** A stored identity `loadState()` accepts at time `now`. The role is not
      checked against "admin" and "employee". */
  predicate Live(a: StoredAuth, now: int) {
    a.isAuthed && a.expiresAt != 0 && a.expiresAt > now
  }

  /** `loadState()` applied to the in-memory state `s`. */
  function Load(s: Session, blob: Option<Envelope>, now: int): (r: Session)
    ensures blob.None? || blob.value.version != VERSION ==> r == s
    ensures blob.Some? && blob.value.version == VERSION ==>
      && r.abuse.attempts == blob.value.attempts.GetOr(s.abuse.attempts)
      && r.abuse.cooldownUntil == blob.value.cooldownUntil.GetOr(s.abuse.cooldownUntil)
      && (r.auth.isAuthed <==> blob.value.auth.Some? && Live(blob.value.auth.value, now))
      && (!r.auth.isAuthed ==> r.auth == SignedOut)
      && (r.auth.isAuthed ==>
            var a := blob.value.auth.value;
            r.auth == Auth(true, OrNull(a.role), OrNull(a.displayName), OrNull(a.empNo)))
    ensures Consistent(s.auth) ==> Consistent(r.auth)
  {
    if blob.None? || blob.value.version != VERSION then s
    else
      var data := blob.value;
      var abuse := Abuse(data.attempts.GetOr(s.abuse.attempts), data.cooldownUntil.GetOr(s.abuse.cooldownUntil));
      var auth :=
        if data.auth.Some? && Live(data.auth.value, now) then
          var a := data.auth.value;
          Auth(true, OrNull(a.role), OrNull(a.displayName), OrNull(a.empNo))
        else SignedOut;
      Session(auth, abuse)
  }

  /** Persisting at `t` and loading before the 6h TTL has run out restores
      the identity and the abuse state exactly, whatever was in memory. */
  lemma PersistThenLoad(s: Session, current: Session, t: int, now: int)
    requires Consistent(s.auth)
    requires 0 <= t <= now < t + SESSION_TTL_MS
    ensures Load(current, Some(Encode(s, t)), now) == s
  {
  }

  /** Once the TTL has run out, the stored identity is dropped (every auth
      field null) while the abuse state is still restored. */
  lemma LoadAfterExpiry(s: Session, current: Session, t: int, now: int)
    requires t + SESSION_TTL_MS <= now
    ensures Load(current, Some(Encode(s, t)), now) == Session(SignedOut, s.abuse)
  {
  }

  /** A stored identity whose expiry time is not in the future never loads as
      signed in, whatever its `isAuthed` flag says. */
  lemma ExpiredNeverLoads(current: Session, e: Envelope, now: int)
    requires e.version == VERSION && e.auth.Some? && e.auth.value.expiresAt <= now
    ensures !Load(current, Some(e), now).auth.isAuthed
  {
  }
}
