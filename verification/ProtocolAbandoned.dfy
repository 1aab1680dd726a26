/** One run of the protocol machine in which the books do not close without the miss
  that was abandoned: the dependencies cannot be observed again after the function ran. */
module ProtocolAbandoned {
  import opened Protocol
  import opened ProtocolTally
  import opened Wrappers

  /** The call of the run below, before and behind the lock. */
  function TheCall(dep: Dep, stage: Stage): Call {
    Call("", dep, false, stage, 0, 0, 0, 0)
  }

  /** Where its thread is after `n` steps: a miss, an execution, and an exception where
    the dependencies are looked at again. */
  function PcAt(dep: Dep, v: Value, n: int): Pc {
    var early, late := TheCall(dep, Fast), TheCall(dep, Locked);
    if n == 0 then Idle else if n == 1 then In(early, FirstLook) else if n == 2 then In(early, Get)
    else if n == 3 then Queued(late) else if n == 4 then In(late, FirstLook) else if n == 5 then In(late, Get)
    else if n == 6 then In(late, Classify) else if n == 7 then In(late, Reget) else if n == 8 then In(late, PopMarker)
    else if n == 9 then In(late, CountMiss(NotFound)) else if n == 10 then In(late, Calling(None))
    else if n == 11 then In(late, Running(None)) else if n == 12 then In(late, Ran(None, v))
    else if n == 13 then In(late, Recheck(v)) else if n == 14 then In(late, Leaving(Raised)) else Idle
  }

  function StateAt(dep: Dep, v: Value, n: int): State {
    var tally := Tally(0, if n < 10 then 0 else 1, 0, 0, 0, 0, 0, 0, if n < 13 then 0 else 1, 0, 0, 0);
    var past := Past(0, map[], if n == 11 || n == 12 || n == 13 then {""} else {}, if n == 0 then 0 else 1, 0, 0,
                     if n < 14 then 0 else 1, 0, 0, false, false);
    State(map[], [], {}, [], if 4 <= n < 15 then map["" := 0] else map[], map[0 := PcAt(dep, v, n)], 0, dep,
          tally, past)
  }

  function StepAt(v: Value, n: int): Step {
    if n == 0 then Start(0, "", false) else Go(0, Choice(n == 11, n == 13, 0, None, v, Matching, false))
  }

  const TRACKED := Config(None, None, true, false)

  ghost predicate RunsAt(f: Function, dep: Dep, n: int) {
    var v := f("", dep);
    var s := StateAt(dep, v, n);
    Enabled(TRACKED, s, StepAt(v, n)) && Next(TRACKED, f, s, StepAt(v, n)) == StateAt(dep, v, n + 1)
  }

  lemma LooksRun(f: Function, dep: Dep, n: int)
    requires 0 <= n < 4
    ensures RunsAt(f, dep, n)
  {
    var v := f("", dep);
    var s, t := StateAt(dep, v, n), StateAt(dep, v, n + 1);
    assert Next(TRACKED, f, s, StepAt(v, n)).threads == t.threads;
    assert Next(TRACKED, f, s, StepAt(v, n)).holder == t.holder;
  }

  lemma ClassifiesRun(f: Function, dep: Dep, n: int)
    requires 4 <= n < 9
    ensures RunsAt(f, dep, n)
  {
    var v := f("", dep);
    var s, t := StateAt(dep, v, n), StateAt(dep, v, n + 1);
    assert Next(TRACKED, f, s, StepAt(v, n)).threads == t.threads;
  }

  lemma CountsRun(f: Function, dep: Dep, n: int)
    requires 9 <= n < 11
    ensures RunsAt(f, dep, n)
  {
    var v := f("", dep);
    var s, t := StateAt(dep, v, n), StateAt(dep, v, n + 1);
    assert Next(TRACKED, f, s, StepAt(v, n)).threads == t.threads;
  }

  lemma ReturnsRun(f: Function, dep: Dep, n: int)
    requires 11 <= n < 13
    ensures RunsAt(f, dep, n)
  {
    var v := f("", dep);
    var s, t := StateAt(dep, v, n), StateAt(dep, v, n + 1);
    assert Next(TRACKED, f, s, StepAt(v, n)).threads == t.threads;
  }

  lemma RaisesRun(f: Function, dep: Dep, n: int)
    requires 13 <= n < 15
    ensures RunsAt(f, dep, n)
  {
    var v := f("", dep);
    var s, t := StateAt(dep, v, n), StateAt(dep, v, n + 1);
    assert Next(TRACKED, f, s, StepAt(v, n)).threads == t.threads;
    assert Next(TRACKED, f, s, StepAt(v, n)).holder == t.holder;
    assert Next(TRACKED, f, s, StepAt(v, n)).past == t.past;
  }

  lemma EachRuns(f: Function, dep: Dep, n: int)
    requires 0 <= n < 15
    ensures RunsAt(f, dep, n)
  {
    if n < 4 {
      LooksRun(f, dep, n);
    } else if n < 9 {
      ClassifiesRun(f, dep, n);
    } else if n < 11 {
      CountsRun(f, dep, n);
    } else if n < 13 {
      ReturnsRun(f, dep, n);
    } else {
      RaisesRun(f, dep, n);
    }
  }

  function TraceOf(dep: Dep, v: Value): (r: seq<State>)
    ensures |r| == 16 && forall i :: 0 <= i < 16 ==> r[i] == StateAt(dep, v, i)
  {
    seq(16, i => StateAt(dep, v, i))
  }

  function StepsOf(v: Value): (r: seq<Step>)
    ensures |r| == 15 && forall i :: 0 <= i < 15 ==> r[i] == StepAt(v, i)
  {
    seq(15, i => StepAt(v, i))
  }

  lemma Behaves(f: Function, dep: Dep)
    ensures Behavior(TRACKED, f, TraceOf(dep, f("", dep)), StepsOf(f("", dep)))
  {
    var trace, steps := TraceOf(dep, f("", dep)), StepsOf(f("", dep));
    forall i | 0 <= i < |steps|
      ensures Enabled(TRACKED, trace[i], steps[i]) && trace[i + 1] == Next(TRACKED, f, trace[i], steps[i])
    {
      EachRuns(f, dep, i);
    }
  }

  predicate AbandonedOnly(s: State) {
    && Quiescent(s) && Misses(s.tally) == 1 && s.tally.computes == 1
    && s.tally.writes == 0 && s.tally.skipped == 0 && s.past.raised == 0
  }

  lemma Ends(dep: Dep, v: Value)
    ensures Untouched(StateAt(dep, v, 0)) && AbandonedOnly(StateAt(dep, v, 15))
  {
  }

  /** With a dependency that cannot be observed again after the function ran, every call
    has returned and there is a miss and an execution, but no write, no skipped write
    and no exception of the function. */
  lemma ReobservationAbandons(f: Function, dep: Dep)
    ensures exists trace: seq<State>, steps: seq<Step> ::
      Behavior(TRACKED, f, trace, steps) && Untouched(trace[0]) && AbandonedOnly(trace[|steps|])
  {
    Behaves(f, dep);
    Ends(dep, f("", dep));
  }
}
