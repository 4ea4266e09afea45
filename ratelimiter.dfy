/** The token-bucket limiter of regos/regos_rate_limiter.py. One call of `acquire` is one
    atomic step: the source holds its lock for the whole call, sleep included, so callers of
    one limiter are served one after another. The clock reading `time.monotonic()` is the
    parameter `now`, and the sleep is the wait the step returns. */
module RateLimiter {

  /** The four fields of a limiter: tokens refilled per second, the largest number of tokens
      held, the tokens held now, and the clock reading of the last refill. Nothing checks
      `rate` or `burst`, so any values are possible. */
  datatype LimiterState = LimiterState(rate: real, capacity: int, tokens: int, updatedAt: real)

  /** What one `acquire` did: returned at once, slept for `seconds`, or raised
      ZeroDivisionError while computing the sleep (a rate of 0 with no token left). */
  datatype Admission = Immediate | Waited(seconds: real) | DivisionByZero

  /** `int(x)` on a float: truncation toward zero. */
  function Trunc(x: real): (n: int)
    ensures x >= 0.0 ==> n as real <= x < n as real + 1.0
    ensures x < 0.0 ==> n as real - 1.0 < x <= n as real
  {
    if x >= 0.0 then x.Floor else -((-x).Floor)
  }

  function Min(a: int, b: int): int { if a <= b then a else b }

  /** `RegosRateLimiter(rate, burst)` created when the clock reads `now`: a full bucket. */
  function Fresh(rate: real, burst: int, now: real): (s: LimiterState)
    ensures s.tokens == s.capacity == burst && s.updatedAt == now && s.rate == rate
  {
    LimiterState(rate, burst, burst, now)
  }

  /** The tokens after the refill at `now`: what has accrued since the last refill is added,
      the fraction of a token is cut off, and the bucket is capped at its capacity. */
  function Refilled(s: LimiterState, now: real): int
  {
    Min(s.capacity, Trunc(Accrued(s.tokens, now - s.updatedAt, s.rate)))
  }

  /** The tokens held plus what accrued over `elapsed` seconds, before anything is cut off. */
  function Accrued(tokens: int, elapsed: real, rate: real): real
  {
    tokens as real + elapsed * rate
  }

  /** One `acquire` at clock reading `now`: the new fields and what the caller experienced.
      The refill always moves `updatedAt` to `now`; a whole token is then taken at once, or
      the caller sleeps until one would have accrued and the bucket is left empty. */
  function AcquireStep(s: LimiterState, now: real): (r: (LimiterState, Admission))
    ensures r.0.rate == s.rate && r.0.capacity == s.capacity && r.0.updatedAt == now
    ensures r.1 == Immediate <==> Refilled(s, now) >= 1
    ensures r.1 == Immediate ==> r.0.tokens == Refilled(s, now) - 1
    ensures r.1.Waited? ==> r.0.tokens == 0 && r.1.seconds * s.rate == 1.0 - Refilled(s, now) as real
    ensures r.1 == DivisionByZero <==> Refilled(s, now) < 1 && s.rate == 0.0
    ensures s.capacity >= 0 && r.1 != DivisionByZero ==> 0 <= r.0.tokens <= s.capacity
  {
    var t := Refilled(s, now);
    if t < 1 then
      if s.rate == 0.0 then (s.(tokens := t, updatedAt := now), DivisionByZero)
      else (s.(tokens := 0, updatedAt := now), Waited((1.0 - t as real) / s.rate))
    else (s.(tokens := t - 1, updatedAt := now), Immediate)
  }

  /** Time that does not run backwards at a rate that is not negative adds no negative
      amount. */
  lemma AccruedAtLeast(tokens: int, elapsed: real, rate: real)
    requires elapsed >= 0.0 && rate >= 0.0
    ensures Accrued(tokens, elapsed, rate) >= tokens as real
  {
    if elapsed > 0.0 && rate > 0.0 {
      MulPositive(elapsed, rate);
    }
  }

  lemma MulPositive(a: real, b: real)
    requires a > 0.0 && b > 0.0
    ensures a * b > 0.0
  {
  }

  /** The limiter object. Its methods change its fields in place, as the source does. */
  class RegosRateLimiter {
    var rate: real
    var capacity: int
    var tokens: int
    var updatedAt: real

    function State(): LimiterState
      reads this
    {
      LimiterState(rate, capacity, tokens, updatedAt)
    }

    /** `RegosRateLimiter(rate, burst)` with the clock reading `now`. */
    constructor (rate: real, burst: int, now: real)
      ensures State() == Fresh(rate, burst, now)
    {
      this.rate := rate;
      capacity := burst;
      tokens := burst;
      updatedAt := now;
    }

    /** `acquire()` at clock reading `now`; `admission` is what the caller waited. */
    method Acquire(now: real) returns (admission: Admission)
      modifies this
      ensures (State(), admission) == AcquireStep(old(State()), now)
    {
      ghost var s := State();
      var elapsed := now - updatedAt;
      updatedAt := now;
      tokens := Min(capacity, Trunc(Accrued(tokens, elapsed, rate)));
      if tokens < 1 {
        if rate == 0.0 {
          admission := DivisionByZero;
          return;
        }
        admission := Waited((1.0 - tokens as real) / rate);
        tokens := 0;
      } else {
        tokens := tokens - 1;
        admission := Immediate;
      }
    }
  }

  /** A limiter that keeps its promise: a rate, a capacity that is not negative, and a token
      count between 0 and the capacity. */
  predicate Sane(s: LimiterState)
  {
    s.rate > 0.0 && 0 <= s.tokens <= s.capacity
  }

  /** `acquire` called once at every clock reading of `times`, in order. */
  function AcquireAll(s: LimiterState, times: seq<real>): (r: (LimiterState, seq<Admission>))
    ensures |r.1| == |times|
    ensures r.0.rate == s.rate && r.0.capacity == s.capacity
    ensures times != [] ==> r.0.updatedAt == times[|times| - 1]
    decreases |times|
  {
    if times == [] then (s, [])
    else
      var (s1, a1) := AcquireStep(s, times[0]);
      var (sn, rest) := AcquireAll(s1, times[1..]);
      assert times[1..] != [] ==> times[1..][|times[1..]| - 1] == times[|times| - 1];
      (sn, [a1] + rest)
  }

  /** A sane limiter stays sane through any sequence of calls: the token count never goes
      below 0 nor above the capacity, whatever the clock does. */
  lemma {:induction false} AcquireAllKeepsBounds(s: LimiterState, times: seq<real>)
    requires Sane(s)
    ensures Sane(AcquireAll(s, times).0)
    ensures forall i :: 0 <= i < |times| ==> AcquireAll(s, times).1[i] != DivisionByZero
    decreases |times|
  {
    if times != [] {
      var (s1, a1) := AcquireStep(s, times[0]);
      AcquireAllKeepsBounds(s1, times[1..]);
    }
  }

  /** Fast path: with a whole token after the refill, one token is taken and nothing waits. */
  lemma FastPath(s: LimiterState, now: real)
    requires Sane(s) && now >= s.updatedAt && s.tokens >= 1
    ensures AcquireStep(s, now).1 == Immediate
    ensures AcquireStep(s, now).0.tokens == Refilled(s, now) - 1 >= s.tokens - 1
  {
    AccruedAtLeast(s.tokens, now - s.updatedAt, s.rate);
  }

  /** Wait path: an empty bucket refilled too early for a whole token makes the caller sleep
      exactly `1 / rate` seconds, and leaves the bucket empty. */
  lemma WaitPath(s: LimiterState, now: real)
    requires Sane(s) && now >= s.updatedAt && Refilled(s, now) < 1
    ensures AcquireStep(s, now) == (s.(tokens := 0, updatedAt := now), Waited(1.0 / s.rate))
  {
    AccruedAtLeast(s.tokens, now - s.updatedAt, s.rate);
  }

  /** `n` clock readings all equal to `t`. */
  function Instant(t: real, n: nat): (ts: seq<real>)
    ensures |ts| == n && forall i :: 0 <= i < n ==> ts[i] == t
  {
    if n == 0 then [] else [t] + Instant(t, n - 1)
  }

  /** A burst of calls at one instant on a bucket holding `k` tokens: the first `n <= k` all go
      through at once and leave `k - n` tokens. */
  lemma {:induction false} BurstAtOneInstant(s: LimiterState, n: nat)
    requires Sane(s) && n <= s.tokens
    ensures var (sn, adm) := AcquireAll(s, Instant(s.updatedAt, n));
      sn == s.(tokens := s.tokens - n) && forall i :: 0 <= i < n ==> adm[i] == Immediate
    decreases n
  {
    if n > 0 {
      var t := s.updatedAt;
      assert Accrued(s.tokens, t - t, s.rate) == s.tokens as real;
      var s1 := s.(tokens := s.tokens - 1);
      assert AcquireStep(s, t) == (s1, Immediate);
      assert Instant(t, n)[1..] == Instant(t, n - 1);
      BurstAtOneInstant(s1, n - 1);
    }
  }

  /** A fresh limiter lets `burst` calls at the instant of its creation through without
      waiting, and the next call at that instant sleeps `1 / rate` seconds. */
  lemma FreshBurst(rate: real, burst: nat, now: real)
    requires rate > 0.0
    ensures var (sn, adm) := AcquireAll(Fresh(rate, burst, now), Instant(now, burst));
      sn.tokens == 0 && (forall i :: 0 <= i < burst ==> adm[i] == Immediate)
      && AcquireStep(sn, now).1 == Waited(1.0 / rate)
  {
    var s := Fresh(rate, burst, now);
    BurstAtOneInstant(s, burst);
    var sn := AcquireAll(s, Instant(now, burst)).0;
    assert sn == s.(tokens := 0);
    WaitPath(sn, now);
  }

  /** When the caller who acquires next gets the lock: right after the previous caller
      returned, i.e. after its sleep. */
  function ResumeTime(now: real, a: Admission): real
  {
    if a.Waited? then now + a.seconds else now
  }

  /** Callers served back to back: each call reads the clock exactly when the previous one
      returned, starting at `start`. */
  function BackToBack(s: LimiterState, start: real, n: nat): (r: (LimiterState, real))
    decreases n
  {
    if n == 0 then (s, start)
    else
      var (s1, a1) := AcquireStep(s, start);
      BackToBack(s1, ResumeTime(start, a1), n - 1)
  }

  /** Five callers served back to back by a limiter with rate 1 and capacity 1 are all through
      after two seconds: the sleep's token is handed out, yet `updatedAt` stays at the start of
      the sleep, so the next refill counts the same second again. A token bucket of rate 1 and
      capacity 1 admits at most 1 + 1 * 2 = 3 calls in two seconds. */
  lemma DoubleCountedSleep()
    ensures var s0 := Fresh(1.0, 1, 0.0);
      BackToBack(s0, 0.0, 5).1 == 2.0 && 5.0 > s0.capacity as real + s0.rate * (2.0 - 0.0)
  {
    var s0 := Fresh(1.0, 1, 0.0);
    assert Trunc(1.0) == 1 && Trunc(0.0) == 0;
    var s1 := s0.(tokens := 0);
    assert AcquireStep(s0, 0.0) == (s1, Immediate);
    assert AcquireStep(s1, 0.0) == (s1, Waited(1.0));
    var s3 := LimiterState(1.0, 1, 0, 1.0);
    assert AcquireStep(s1, 1.0) == (s3, Immediate);
    assert AcquireStep(s3, 1.0) == (s3, Waited(1.0));
    var s5 := LimiterState(1.0, 1, 0, 2.0);
    assert AcquireStep(s3, 2.0) == (s5, Immediate);
    assert BackToBack(s5, 2.0, 0) == (s5, 2.0);
  }

  /** The refill as intended: a caller who sleeps for the missing part of a token is charged
      for the time it sleeps, so the last refill moves to the moment the sleep ends. */
  function CorrectedAcquireStep(s: LimiterState, now: real): (r: (LimiterState, Admission))
    ensures r.0.rate == s.rate && r.0.capacity == s.capacity
    ensures r.1 == AcquireStep(s, now).1
    ensures r.0.tokens == AcquireStep(s, now).0.tokens
    ensures r.0.updatedAt == ResumeTime(now, r.1)
  {
    var (s1, a) := AcquireStep(s, now);
    if a.Waited? then (s1.(updatedAt := now + a.seconds), a) else (s1, a)
  }

  function CorrectedBackToBack(s: LimiterState, start: real, n: nat): (r: (LimiterState, real))
    decreases n
  {
    if n == 0 then (s, start)
    else
      var (s1, a1) := CorrectedAcquireStep(s, start);
      CorrectedBackToBack(s1, ResumeTime(start, a1), n - 1)
  }

  /** The tokens a bucket of rate `rate` earns between clock readings `from` and `to`. */
  function Credit(rate: real, from: real, to: real): real
  {
    rate * (to - from)
  }

  lemma CreditSplit(rate: real, a: real, b: real, c: real)
    ensures Credit(rate, a, c) == Credit(rate, a, b) + Credit(rate, b, c)
  {
  }

  lemma CreditMonotone(rate: real, a: real, b: real, c: real)
    requires rate > 0.0 && b <= c
    ensures Credit(rate, a, b) <= Credit(rate, a, c)
  {
    CreditSplit(rate, a, b, c);
    if b < c {
      MulPositive(rate, c - b);
    }
  }

  /** One corrected call: the token it hands out and the tokens it leaves are paid for by the
      tokens held before and what accrued up to the moment the caller returns. */
  lemma CorrectedStepBudget(s: LimiterState, now: real)
    requires s.rate > 0.0 && s.tokens >= 0 && now >= s.updatedAt
    ensures var s1 := CorrectedAcquireStep(s, now).0;
      s1.tokens >= 0 && s1.updatedAt >= now
      && 1.0 + s1.tokens as real <= s.tokens as real + Credit(s.rate, s.updatedAt, s1.updatedAt)
  {
    AccruedAtLeast(s.tokens, now - s.updatedAt, s.rate);
    var t := Refilled(s, now);
    assert t as real <= Accrued(s.tokens, now - s.updatedAt, s.rate);
    var (s1, a) := CorrectedAcquireStep(s, now);
    if a.Waited? {
      var w := a.seconds;
      assert w * s.rate == 1.0 - t as real;
      assert w >= 0.0;
      assert s.rate * (s1.updatedAt - s.updatedAt) == s.rate * (now - s.updatedAt) + w * s.rate;
    }
  }

  /** With the correction, `n` callers served back to back from `start` cannot outrun the
      bucket: the calls admitted, plus the tokens left over, are at most the tokens held at
      the start plus what the bucket earns until the last caller returns. */
  lemma {:induction false} CorrectedBackToBackBudget(s: LimiterState, start: real, n: nat)
    requires s.rate > 0.0 && s.tokens >= 0 && start >= s.updatedAt
    ensures var (sn, end) := CorrectedBackToBack(s, start, n);
      n as real + sn.tokens as real <= s.tokens as real + Credit(s.rate, s.updatedAt, sn.updatedAt)
      && sn.tokens >= 0 && sn.rate == s.rate && sn.updatedAt <= end
    decreases n
  {
    if n > 0 {
      var (s1, a1) := CorrectedAcquireStep(s, start);
      CorrectedStepBudget(s, start);
      CorrectedBackToBackBudget(s1, ResumeTime(start, a1), n - 1);
      var sn := CorrectedBackToBack(s1, ResumeTime(start, a1), n - 1).0;
      CreditSplit(s.rate, s.updatedAt, s1.updatedAt, sn.updatedAt);
    }
  }

  /** The intended rate: from a fresh limiter, `n` callers served back to back take at least
      `(n - burst) / rate` seconds before the last one returns. */
  lemma CorrectedRate(rate: real, burst: nat, now: real, n: nat)
    requires rate > 0.0
    ensures (n - burst) as real <= rate * (CorrectedBackToBack(Fresh(rate, burst, now), now, n).1 - now)
  {
    var s := Fresh(rate, burst, now);
    CorrectedBackToBackBudget(s, now, n);
    var (sn, end) := CorrectedBackToBack(s, now, n);
    CreditMonotone(rate, now, sn.updatedAt, end);
  }
}
