/**
 * The client-side rate limit: a count of consecutive failed logins and a
 * deadline before which the login form stays locked. It only shapes what the
 * page shows; anyone controlling the browser can bypass it.
 */
module AbuseGuard {

  const MAX_FAILS: int := 5
  const COOLDOWN_MS: int := 30 * 1000

  /** `APP_STATE.abuse`: `cooldownUntil` is an epoch time in ms, 0 when unset. */
  datatype Abuse = Abuse(attempts: int, cooldownUntil: int)

  const NoAbuse: Abuse := Abuse(0, 0)

  /** `isCoolingDown()`. */
  predicate IsCoolingDown(a: Abuse, now: int) {
    a.cooldownUntil > now
  }

  /** `remainingCooldownMs()`: `Math.max(0, cooldownUntil - now)`. */
  function RemainingCooldownMs(a: Abuse, now: int): (r: int)
    ensures r >= 0
    ensures r > 0 <==> IsCoolingDown(a, now)
    ensures IsCoolingDown(a, now) ==> now + r == a.cooldownUntil
  {
    var left := a.cooldownUntil - now;
    if left > 0 then left else 0
  }

  /** While a cooldown runs, the time left strictly shrinks as the clock advances. */
  lemma RemainingDecreases(a: Abuse, t1: int, t2: int)
    requires t1 < t2 && IsCoolingDown(a, t1)
    ensures RemainingCooldownMs(a, t2) < RemainingCooldownMs(a, t1)
  {
  }

  /** `bumpFail()` without its `persistState()`: count one failure; the
      MAX_FAILS-th one starts a cooldown and restarts the count. */
  function BumpFail(a: Abuse, now: int): (r: Abuse)
    ensures a.attempts + 1 < MAX_FAILS ==> r.attempts == a.attempts + 1 && r.cooldownUntil == a.cooldownUntil
    ensures a.attempts + 1 >= MAX_FAILS ==> r.attempts == 0 && RemainingCooldownMs(r, now) == COOLDOWN_MS
  {
    var attempts := a.attempts + 1;
    if attempts >= MAX_FAILS then Abuse(0, now + COOLDOWN_MS)
    else Abuse(attempts, a.cooldownUntil)
  }

  /** From a count in [0, MAX_FAILS) a failure either adds one and leaves the
      deadline alone, or is the fifth and locks for COOLDOWN_MS; the count
      stays in [0, MAX_FAILS) either way. */
  lemma BumpFailInRange(a: Abuse, now: int)
    requires 0 <= a.attempts < MAX_FAILS
    ensures var r := BumpFail(a, now);
      && 0 <= r.attempts < MAX_FAILS
      && (|| (r.attempts == a.attempts + 1 && r.cooldownUntil == a.cooldownUntil)
          || (a.attempts == MAX_FAILS - 1 && r == Abuse(0, now + COOLDOWN_MS)))
  {
  }

  /** The abuse state after failures at the given times, in order. */
  function FailStreak(a: Abuse, times: seq<int>): Abuse
    decreases |times|
  {
    if times == [] then a else FailStreak(BumpFail(a, times[0]), times[1..])
  }

  /** Fewer failures than the limit only count up. */
  lemma {:induction false} FailStreakCounts(a: Abuse, times: seq<int>)
    requires 0 <= a.attempts && a.attempts + |times| < MAX_FAILS
    ensures FailStreak(a, times) == Abuse(a.attempts + |times|, a.cooldownUntil)
    decreases |times|
  {
    if times != [] {
      FailStreakCounts(BumpFail(a, times[0]), times[1..]);
    }
  }

  /** Exactly MAX_FAILS failures from a zero count end in a cooldown of
      COOLDOWN_MS from the last one and a zero count. */
  lemma {:induction false} FailStreakLocks(a: Abuse, times: seq<int>)
    requires a.attempts == 0 && |times| == MAX_FAILS
    ensures FailStreak(a, times) == Abuse(0, times[MAX_FAILS - 1] + COOLDOWN_MS)
  {
    var first := times[..MAX_FAILS - 1];
    FailStreakCounts(a, first);
    FailStreakSplit(a, first, [times[MAX_FAILS - 1]]);
    assert first + [times[MAX_FAILS - 1]] == times;
  }

  lemma {:induction false} FailStreakSplit(a: Abuse, xs: seq<int>, ys: seq<int>)
    ensures FailStreak(a, xs + ys) == FailStreak(FailStreak(a, xs), ys)
    decreases |xs|
  {
    if xs == [] {
      assert xs + ys == ys;
    } else {
      assert (xs + ys)[0] == xs[0] && (xs + ys)[1..] == xs[1..] + ys;
      FailStreakSplit(BumpFail(a, xs[0]), xs[1..], ys);
    }
  }
}
