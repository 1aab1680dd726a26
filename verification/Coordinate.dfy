/** The bounded wait of the cross-process flight (src/cachau/interprocess.py,
  `coordinate`), against an arbitrary environment: what each pass of the loop
  observes is given by a function of the pass number. */
module Coordinate {
  import opened Wrappers

  datatype Attempt = Acquired | Taken | Unavailable

  /** What one pass sees: the probe of the store, the creation attempt, the lock's
    age, whether a break removed it, and the monotonic clock at the deadline test. */
  datatype Pass<V> = Pass(found: Option<V>, attempt: Attempt, age: Option<real>, removed: bool, now: real)

  datatype Outcome = OutAcquired | OutServed | OutTimeout | OutUnavailable

  datatype Config = Config(maxWait: real, staleAfter: real, pollInitial: real, pollCap: real)

  predicate Positive(c: Config) {
    c.pollInitial > 0.0 && c.pollCap > 0.0
  }

  function Min(a: real, b: real): real {
    if a <= b then a else b
  }

  function Max(a: real, b: real): real {
    if a < b then b else a
  }

  /** The sleep that follows one of this length. */
  function Longer(c: Config, interval: real): real {
    Min(interval * 1.5, c.pollCap)
  }

  /** The length of the sleep that follows `n` earlier ones. */
  function Interval(c: Config, n: nat): real {
    if n == 0 then c.pollInitial else Longer(c, Interval(c, n - 1))
  }

  /** The capped geometric sum: the time asked for by the first `n` sleeps. */
  function Asleep(c: Config, n: nat): real {
    if n == 0 then 0.0 else Asleep(c, n - 1) + Interval(c, n - 1)
  }

  predicate Breaks<V>(c: Config, pass: Pass<V>) {
    pass.age.Some? && pass.age.value > c.staleAfter && pass.removed
  }

  /** How many of the first `n` passes broke a stale lock. */
  function BreaksBefore<V>(c: Config, env: nat -> Pass<V>, n: nat): (b: nat)
    ensures b <= n
  {
    if n == 0 then 0 else BreaksBefore(c, env, n - 1) + if Breaks(c, env(n - 1)) then 1 else 0
  }

  function SleepsBefore<V>(c: Config, env: nat -> Pass<V>, n: nat): nat {
    n - BreaksBefore(c, env, n)
  }

  /** The monotonic clock: it never goes back, and a sleep lasts at least as long as
    asked. */
  ghost predicate WellTimed<V(!new)>(c: Config, env: nat -> Pass<V>, start: real) {
    && start <= env(0).now
    && forall i: nat {:trigger SleepsBefore(c, env, i)} ::
      env(i).now + (if Breaks(c, env(i)) then 0.0 else Interval(c, SleepsBefore(c, env, i)))
                        <= env(i + 1).now
  }

  function Growth(n: nat): real {
    if n == 0 then 1.0 else 1.5 * Growth(n - 1)
  }

  /** Each sleep is half as long again as the one before, up to the cap. */
  lemma {:induction false} IntervalGrows(c: Config, n: nat)
    requires Positive(c) && n > 0
    ensures c.pollInitial * Growth(n) <= c.pollCap ==> Interval(c, n) == c.pollInitial * Growth(n)
    ensures c.pollInitial * Growth(n) > c.pollCap ==> Interval(c, n) == c.pollCap
  {
    assert Growth(n) == 1.5 * Growth(n - 1);
    assert c.pollInitial * Growth(n) == 1.5 * (c.pollInitial * Growth(n - 1));
    if n > 1 {
      IntervalGrows(c, n - 1);
    } else {
      assert Growth(0) == 1.0;
    }
  }

  lemma {:induction false} IntervalBounds(c: Config, n: nat)
    requires Positive(c)
    ensures Min(c.pollInitial, c.pollCap) <= Interval(c, n)
    ensures n > 0 ==> Interval(c, n) <= c.pollCap
    ensures Interval(c, n) <= c.pollCap || Interval(c, n) <= c.pollInitial
  {
    if n > 0 {
      IntervalBounds(c, n - 1);
    }
  }

  lemma {:induction false} AsleepGrows(c: Config, m: nat, n: nat)
    requires Positive(c) && m <= n
    ensures Asleep(c, m) <= Asleep(c, n)
  {
    if m < n {
      AsleepGrows(c, m, n - 1);
      IntervalBounds(c, n - 1);
    }
  }

  lemma {:induction false} AsleepAtLeast(c: Config, n: nat)
    requires Positive(c)
    ensures n as real * Min(c.pollInitial, c.pollCap) <= Asleep(c, n)
  {
    if n > 0 {
      AsleepAtLeast(c, n - 1);
      IntervalBounds(c, n - 1);
      var least := Min(c.pollInitial, c.pollCap);
      assert n as real * least == (n - 1) as real * least + least;
    }
  }

  lemma Outlasts(n: real, wait: real, least: real, total: real)
    requires least > 0.0 && n >= wait / least && n * least <= total
    ensures total >= wait
  {
    var quotient := wait / least;
    assert quotient * least == wait;
    assert (n - quotient) * least >= 0.0;
  }

  /** Enough sleeps outlast any wait. */
  lemma EnoughSleeps(c: Config, m: nat)
    requires Positive(c) && m as real >= c.maxWait / Min(c.pollInitial, c.pollCap)
    ensures Asleep(c, m) >= c.maxWait
  {
    var least := Min(c.pollInitial, c.pollCap);
    AsleepAtLeast(c, m);
    Outlasts(m as real, c.maxWait, least, Asleep(c, m));
  }

  ghost function Enough(c: Config): (m: nat)
    requires Positive(c)
    ensures Asleep(c, m) >= c.maxWait
  {
    var quotient := c.maxWait / Min(c.pollInitial, c.pollCap);
    var m := if quotient <= 0.0 then 0 else quotient.Floor + 1;
    EnoughSleeps(c, m);
    m
  }

  lemma {:induction false} ClockCoversSleep<V(!new)>(c: Config, env: nat -> Pass<V>, start: real, n: nat)
    requires WellTimed(c, env, start)
    ensures start + Asleep(c, SleepsBefore(c, env, n)) <= env(n).now
  {
    if n > 0 {
      ClockCoversSleep(c, env, start, n - 1);
    }
  }

  /** The pass ends the loop without sleeping or breaking. */
  predicate Ends<V>(c: Config, pass: Pass<V>, deadline: real) {
    pass.found.Some? || pass.attempt != Taken || (!Breaks(c, pass) && pass.now >= deadline)
  }

  /** A pass leads to another exactly when nothing is found, the lock is taken, and
    either a lock older than the threshold was removed or the deadline is not reached. */
  lemma WaitsOrBreaks<V>(c: Config, pass: Pass<V>, deadline: real)
    ensures !Ends(c, pass, deadline) <==>
      && pass.found == None && pass.attempt == Taken
      && ((pass.removed && pass.age.Some? && c.staleAfter < pass.age.value) || pass.now < deadline)
    ensures Breaks(c, pass) <==> pass.removed && pass.age.Some? && c.staleAfter < pass.age.value
  {
  }

  /** What the pass that ends the loop answers. */
  ghost predicate Answers<V>(c: Config, pass: Pass<V>, deadline: real, outcome: Outcome, value: Option<V>) {
    match outcome
    case OutServed => pass.found.Some? && value == pass.found
    case OutAcquired => pass.found.None? && pass.attempt == Acquired && value == None
    case OutUnavailable => pass.found.None? && pass.attempt == Unavailable && value == None
    case OutTimeout =>
      pass.found.None? && pass.attempt == Taken && !Breaks(c, pass) && pass.now >= deadline && value == None
  }

  /** Whatever the environment does, as long as stale locks are broken only finitely
    often: the loop ends; it answers for the first pass that ends it; passes are
    sleeps, breaks and one more; it asks for less sleep than the wait plus one
    interval; it sleeps no more often than the capped geometric sum allows; and it
    times out only at or past the deadline. */
  method Coordinate<V(!new)>(c: Config, env: nat -> Pass<V>, start: real, ghost maxBreaks: nat)
    returns (outcome: Outcome, value: Option<V>, staleBroken: nat, passes: nat, ghost sleeps: nat)
    requires Positive(c) && WellTimed(c, env, start)
    requires forall n: nat :: BreaksBefore(c, env, n) <= maxBreaks
    ensures passes == sleeps + staleBroken + 1
    ensures staleBroken == BreaksBefore(c, env, passes - 1)
    ensures forall i: nat :: i < passes - 1 ==> !Ends(c, env(i), start + c.maxWait)
    ensures Answers(c, env(passes - 1), start + c.maxWait, outcome, value)
    ensures sleeps > 0 ==> Asleep(c, sleeps - 1) < c.maxWait
    ensures sleeps > 0 ==> Asleep(c, sleeps) < c.maxWait + Max(c.pollInitial, c.pollCap)
    ensures forall m: nat :: Asleep(c, m) >= c.maxWait ==> sleeps <= m
  {
    var deadline := start + c.maxWait;
    var interval := c.pollInitial;
    ghost var enough := Enough(c);
    staleBroken, passes, sleeps := 0, 0, 0;
    while true
      invariant passes == sleeps + staleBroken
      invariant staleBroken == BreaksBefore(c, env, passes) <= maxBreaks
      invariant interval == Interval(c, sleeps)
      invariant forall i: nat :: i < passes ==> !Ends(c, env(i), deadline)
      invariant sleeps > 0 ==> Asleep(c, sleeps - 1) < c.maxWait
      invariant sleeps <= enough
      decreases maxBreaks - staleBroken + enough - sleeps
    {
      var pass := env(passes);
      passes := passes + 1;
      if pass.found.Some? {
        outcome, value := OutServed, pass.found;
        break;
      }
      if pass.attempt == Acquired {
        outcome, value := OutAcquired, None;
        break;
      }
      if pass.attempt == Unavailable {
        outcome, value := OutUnavailable, None;
        break;
      }
      if Breaks(c, pass) {
        staleBroken := staleBroken + 1;
        assert BreaksBefore(c, env, passes) <= maxBreaks;
        continue;
      }
      if pass.now >= deadline {
        outcome, value := OutTimeout, None;
        break;
      }
      SleepsOnlyBefore(c, env, start, passes - 1, sleeps, enough);
      sleeps := sleeps + 1;
      interval := Longer(c, interval);
    }
    LastSleep(c, sleeps);
  }

  /** A pass that has not reached the deadline follows less sleep than the wait. */
  lemma SleepsOnlyBefore<V(!new)>(c: Config, env: nat -> Pass<V>, start: real, n: nat, sleeps: nat, enough: nat)
    requires Positive(c) && WellTimed(c, env, start) && sleeps == SleepsBefore(c, env, n)
    requires env(n).now < start + c.maxWait && c.maxWait <= Asleep(c, enough)
    ensures Asleep(c, sleeps) < c.maxWait && sleeps < enough
  {
    ClockCoversSleep(c, env, start, n);
    AsleepBelow(c, sleeps, enough);
  }

  lemma AsleepBelow(c: Config, sleeps: nat, m: nat)
    requires Positive(c) && Asleep(c, sleeps) < c.maxWait <= Asleep(c, m)
    ensures sleeps < m
  {
    if m <= sleeps {
      AsleepGrows(c, m, sleeps);
    }
  }

  lemma LastSleep(c: Config, sleeps: nat)
    requires Positive(c) && (sleeps > 0 ==> Asleep(c, sleeps - 1) < c.maxWait)
    ensures sleeps > 0 ==> Asleep(c, sleeps) < c.maxWait + Max(c.pollInitial, c.pollCap)
    ensures forall m: nat :: Asleep(c, m) >= c.maxWait ==> sleeps <= m
  {
    if sleeps > 0 {
      IntervalBounds(c, sleeps - 1);
      forall m: nat | Asleep(c, m) >= c.maxWait ensures sleeps <= m {
        AsleepBelow(c, sleeps - 1, m);
      }
    }
  }
}
