/** No false hit: over every run of the protocol machine, what the cache serves is
  what the function would return for the caller's own dependency snapshot, and it is
  unexpired.

  The function is determined by its key and the dependency state; a run that
  overlaps a dependency change may return anything.  Dependencies may change at any
  step, but never back to a call's snapshot between that call's start and its
  re-observation (the stability contract the program documents). */
module ProtocolFaithful {
  import opened Policy
  import opened Protocol
  import opened Wrappers

  /** The entry holds the function's value for the dependency state it is stamped with. */
  predicate Good(f: Function, key: Key, e: Entry) {
    e.value == f(key, e.dep)
  }

  predicate GoodStore(f: Function, s: State) {
    forall key :: key in s.store ==> Good(f, key, s.store[key])
  }

  /** An entry the call has judged servable. */
  predicate Servable(cfg: Config, f: Function, c: Call, e: Entry) {
    Good(f, c.key, e) && IsFresh(cfg, c, e, c.at)
  }

  /** A value computed by the call: right for its snapshot unless the dependencies
    moved meanwhile. */
  predicate Computed(f: Function, c: Call, v: Value) {
    c.torn || v == f(c.key, c.start)
  }

  predicate CachedOk(cfg: Config, f: Function, c: Call, cached: Option<Entry>) {
    cached.Some? ==> Servable(cfg, f, c, cached.value)
  }

  predicate PointOk(cfg: Config, f: Function, c: Call, p: Point) {
    match p
    case Judge(e) => Good(f, c.key, e)
    case SecondLook(e) => Servable(cfg, f, c, e)
    case Touching(e) => Servable(cfg, f, c, e)
    case Counting(e) => Servable(cfg, f, c, e)
    case Forgetting(after) => after.AfterMismatch? ==> Computed(f, c, after.value)
    case Calling(cached) => CachedOk(cfg, f, c, cached)
    case Running(cached) => CachedOk(cfg, f, c, cached)
    case Ran(cached, v) => CachedOk(cfg, f, c, cached) && Computed(f, c, v)
    case Comparing(e, v) => Servable(cfg, f, c, e) && Computed(f, c, v)
    case Unverified(v) => Computed(f, c, v)
    case Recheck(v) => Computed(f, c, v)
    case Stamping(v) => v == f(c.key, c.start)
    case Sizing(v, _) => v == f(c.key, c.start)
    case Setting(e) => Good(f, c.key, e)
    case Leaving(r) => r.Served? ==> Servable(cfg, f, c, r.entry)
    case _ => true
  }

  /** A torn snapshot is not the present dependency state: the changes never came back. */
  predicate TearOk(cfg: Config, dep: Dep, pc: Pc) {
    HasCall(pc) && pc.c.torn ==> cfg.tracked && (Exposed(pc) ==> dep != pc.c.start)
  }

  predicate Honest(cfg: Config, f: Function, dep: Dep, pc: Pc) {
    TearOk(cfg, dep, pc) && (pc.In? ==> PointOk(cfg, f, pc.c, pc.at))
  }

  predicate Faithful(cfg: Config, f: Function, s: State) {
    GoodStore(f, s) && forall t :: t in s.threads ==> Honest(cfg, f, s.dep, s.threads[t])
  }

  lemma EarlyHonest(cfg: Config, f: Function, s: State, c: Call, p: Point, ch: Choice)
    requires GoodStore(f, s) && Honest(cfg, f, s.dep, In(c, p))
    requires Looks(p) || Serves(p) || Classifies(p)
    ensures Honest(cfg, f, s.dep, CallMove(cfg, f, s, c, p, ch).pc)
    ensures !CallMove(cfg, f, s, c, p, ch).effect.Write?
  {
    if Looks(p) {
    } else if Serves(p) {
    } else {
    }
  }

  lemma ComputeHonest(cfg: Config, f: Function, s: State, c: Call, p: Point, ch: Choice)
    requires Honest(cfg, f, s.dep, In(c, p)) && Computes(p)
    ensures var move := ComputeMove(f, c, p, ch);
      Honest(cfg, f, s.dep, move.pc) && (move.effect.Write? ==> Good(f, move.effect.key, move.effect.e))
  {
  }

  lemma PrepareHonest(cfg: Config, f: Function, s: State, c: Call, p: Point, ch: Choice)
    requires Honest(cfg, f, s.dep, In(c, p)) && Prepares(p)
    ensures var move := PrepareMove(cfg, s, c, p, ch);
      Honest(cfg, f, s.dep, move.pc) && (move.effect.Write? ==> Good(f, move.effect.key, move.effect.e))
  {
  }

  lemma FinishHonest(cfg: Config, f: Function, s: State, c: Call, p: Point, ch: Choice)
    requires Honest(cfg, f, s.dep, In(c, p)) && Finishes(p)
    ensures var move := FinishMove(s, c, p, ch);
      Honest(cfg, f, s.dep, move.pc) && (move.effect.Write? ==> Good(f, move.effect.key, move.effect.e))
  {
  }

  lemma EnactGood(cfg: Config, f: Function, s: State, t: Tid, effect: Effect)
    requires GoodStore(f, s)
    requires effect.Write? ==> Good(f, effect.key, effect.e)
    ensures GoodStore(f, Enact(cfg, s, t, effect))
    ensures Enact(cfg, s, t, effect).dep == s.dep && Enact(cfg, s, t, effect).threads == s.threads
  {
  }

  /** Entries other processes commit are faithful, as this process's own are. */
  predicate FaithfulPeer(f: Function, step: Step) {
    step.ForeignCommit? ==> Good(f, step.key, step.e)
  }

  lemma TearHonest(cfg: Config, f: Function, s: State, dep: Dep, pc: Pc)
    requires Honest(cfg, f, s.dep, pc) && cfg.tracked && dep != s.dep
    requires Exposed(pc) && s.dep != pc.c.start ==> dep != pc.c.start
    ensures Honest(cfg, f, dep, Tear(pc))
  {
  }

  lemma MoveHonest(cfg: Config, f: Function, s: State, pc: Pc, ch: Choice)
    requires GoodStore(f, s) && Honest(cfg, f, s.dep, pc)
    ensures var move := ThreadMove(cfg, f, s, pc, ch);
      Honest(cfg, f, s.dep, move.pc) && (move.effect.Write? ==> Good(f, move.effect.key, move.effect.e))
  {
    if pc.In? {
      if Computes(pc.at) {
        ComputeHonest(cfg, f, s, pc.c, pc.at, ch);
      } else if Prepares(pc.at) {
        PrepareHonest(cfg, f, s, pc.c, pc.at, ch);
      } else if Finishes(pc.at) {
        FinishHonest(cfg, f, s, pc.c, pc.at, ch);
      } else {
        EarlyHonest(cfg, f, s, pc.c, pc.at, ch);
      }
    }
  }

  lemma TearFaithful(cfg: Config, f: Function, s: State, dep: Dep)
    requires Faithful(cfg, f, s) && Enabled(cfg, s, ChangeDep(dep)) && dep != s.dep
    ensures Faithful(cfg, f, s.(dep := dep, threads := map t | t in s.threads :: Tear(s.threads[t])))
  {
    forall t | t in s.threads ensures Honest(cfg, f, dep, Tear(s.threads[t])) {
      TearHonest(cfg, f, s, dep, s.threads[t]);
    }
  }

  lemma FaithfulKept(cfg: Config, f: Function, s: State, step: Step)
    requires Faithful(cfg, f, s) && Enabled(cfg, s, step) && FaithfulPeer(f, step)
    ensures Faithful(cfg, f, Next(cfg, f, s, step))
  {
    match step {
      case Go(t, ch) =>
        MoveHonest(cfg, f, s, s.threads[t], ch);
        EnactGood(cfg, f, s, t, ThreadMove(cfg, f, s, s.threads[t], ch).effect);
      case ChangeDep(dep) =>
        if dep != s.dep {
          TearFaithful(cfg, f, s, dep);
        }
      case _ =>
    }
  }

  lemma {:induction false} FaithfulHolds(cfg: Config, f: Function, trace: seq<State>, steps: seq<Step>, n: nat)
    requires Behavior(cfg, f, trace, steps) && n < |trace|
    requires Faithful(cfg, f, trace[0])
    requires forall i :: 0 <= i < |steps| ==> FaithfulPeer(f, steps[i])
    ensures Faithful(cfg, f, trace[n])
  {
    if n > 0 {
      FaithfulHolds(cfg, f, trace, steps, n - 1);
      FaithfulKept(cfg, f, trace[n - 1], steps[n - 1]);
    }
  }

  /** Every stored entry is the function's value for the fingerprints stored with it. */
  lemma StoreIsFaithful(cfg: Config, f: Function, trace: seq<State>, steps: seq<Step>, n: nat, key: Key)
    requires Behavior(cfg, f, trace, steps) && n < |trace|
    requires Quiescent(trace[0]) && GoodStore(f, trace[0])
    requires forall i :: 0 <= i < |steps| ==> FaithfulPeer(f, steps[i])
    requires key in trace[n].store
    ensures trace[n].store[key].value == f(key, trace[n].store[key].dep)
  {
    FaithfulHolds(cfg, f, trace, steps, n);
  }

  /** A call about to return a cached value, whichever check served it (lock-free,
    coalesced, cross-process or verified), returns what the function gives for the
    call's own dependency snapshot, and that value had not expired at the clock
    reading the call judged it by.  Without declared dependencies the function
    depends on its key alone. */
  lemma NoFalseHit(cfg: Config, f: Function, trace: seq<State>, steps: seq<Step>, n: nat, t: Tid)
    requires Behavior(cfg, f, trace, steps) && n < |trace|
    requires Quiescent(trace[0]) && GoodStore(f, trace[0])
    requires forall i :: 0 <= i < |steps| ==> FaithfulPeer(f, steps[i])
    requires !cfg.tracked ==> forall key, a, b :: f(key, a) == f(key, b)
    requires t in trace[n].threads && trace[n].threads[t].In? && trace[n].threads[t].at.Leaving?
    requires trace[n].threads[t].at.r.Served?
    ensures var c, e := trace[n].threads[t].c, trace[n].threads[t].at.r.entry;
      e.value == f(c.key, c.start) && (e.expires.Some? ==> c.at < e.expires.value)
  {
    FaithfulHolds(cfg, f, trace, steps, n);
  }

  /** A check goes on to serve an entry exactly when the entry expires after the clock's
    reading and after every earlier one, and the fingerprints stored with it are the
    call's own. */
  lemma JudgedByClockAndDependencies(cfg: Config, s: State, c: Call, e: Entry, ch: Choice)
    requires !ch.raises
    ensures var pc := LookMove(cfg, s, c, Judge(e), ch).pc;
      && (pc.In? && pc.at == SecondLook(e) <==>
            && (e.expires.Some? ==> s.last < e.expires.value && ch.reading < e.expires.value)
            && (cfg.tracked ==> e.dep == c.start))
      && (pc.In? && pc.at == SecondLook(e) ==> pc.c.at >= ch.reading && pc.c.key == c.key && pc.c.start == c.start)
  {
  }

  /** The thread's call judged by a reading the clock has passed. */
  predicate Timed(s: State, t: Tid) {
    t in s.threads && HasCall(s.threads[t]) ==> s.threads[t].c.at <= s.last
  }

  lemma MoveTime(cfg: Config, f: Function, s: State, pc: Pc, ch: Choice)
    requires HasCall(pc) ==> pc.c.at <= s.last
    ensures var move := ThreadMove(cfg, f, s, pc, ch);
      && (move.effect.Tick? ==> s.last <= move.effect.now)
      && (HasCall(move.pc) && HasCall(pc) ==> pc.c.at <= move.pc.c.at)
      && (HasCall(move.pc) ==> move.pc.c.at <= if move.effect.Tick? then move.effect.now else s.last)
  {
    if pc.In? {
      var p := pc.at;
      if Looks(p) {
      } else if Serves(p) {
      } else if Classifies(p) {
      } else if Computes(p) {
      } else if Prepares(p) {
      } else {
      }
    }
  }

  lemma EnactTime(cfg: Config, s: State, t: Tid, effect: Effect)
    ensures var after := Enact(cfg, s, t, effect);
      after.threads == s.threads && after.last == if effect.Tick? then effect.now else s.last
  {
  }

  /** Clock readings never decrease: the ratchet only moves forward, whatever the
    wall clock does, and every call judges by a reading it has passed. */
  lemma ClockNeverDecreases(cfg: Config, f: Function, s: State, step: Step, t: Tid)
    requires Enabled(cfg, s, step) && Timed(s, t)
    requires step.Go? ==> Timed(s, step.t)
    ensures s.last <= Next(cfg, f, s, step).last && Timed(Next(cfg, f, s, step), t)
  {
    if step.Go? {
      MoveTime(cfg, f, s, s.threads[step.t], step.choice);
      EnactTime(cfg, s, step.t, ThreadMove(cfg, f, s, s.threads[step.t], step.choice).effect);
    }
  }

  lemma {:induction false} TimedHolds(cfg: Config, f: Function, trace: seq<State>, steps: seq<Step>, n: nat, t: Tid)
    requires Behavior(cfg, f, trace, steps) && n < |trace| && Quiescent(trace[0])
    ensures Timed(trace[n], t)
    decreases n
  {
    if n > 0 {
      TimedHolds(cfg, f, trace, steps, n - 1, t);
      if steps[n - 1].Go? {
        TimedHolds(cfg, f, trace, steps, n - 1, steps[n - 1].t);
      }
      ClockNeverDecreases(cfg, f, trace[n - 1], steps[n - 1], t);
    }
  }

  lemma ClockStep(cfg: Config, f: Function, s: State, step: Step, after: State)
    requires Enabled(cfg, s, step) && after == Next(cfg, f, s, step)
    requires step.Go? ==> Timed(s, step.t)
    ensures s.last <= after.last
  {
    if step.Go? {
      ClockNeverDecreases(cfg, f, s, step, step.t);
    }
  }

  lemma LastStep(cfg: Config, f: Function, trace: seq<State>, steps: seq<Step>, n: nat)
    requires Behavior(cfg, f, trace, steps) && n < |steps| && Quiescent(trace[0])
    ensures trace[n].last <= trace[n + 1].last
  {
    if steps[n].Go? {
      TimedHolds(cfg, f, trace, steps, n, steps[n].t);
    }
    ClockStep(cfg, f, trace[n], steps[n], trace[n + 1]);
  }

  /** Over any run the clamped clock never goes back. */
  lemma {:induction false} ReadingsAreOrdered(
      cfg: Config, f: Function, trace: seq<State>, steps: seq<Step>, i: nat, j: nat)
    requires Behavior(cfg, f, trace, steps) && i <= j < |trace| && Quiescent(trace[0])
    ensures trace[i].last <= trace[j].last
  {
    if i < j {
      ReadingsAreOrdered(cfg, f, trace, steps, i, j - 1);
      LastStep(cfg, f, trace, steps, j - 1);
    }
  }
}
