/** The time to live: over every run of the protocol machine an entry is served only at
  readings before the one of its commit plus the TTL, and until then it is servable. */
module ProtocolTtl {
  import opened Policy
  import opened Protocol
  import opened Wrappers

  /** The entry expires as long after its commit as the TTL says. */
  predicate Lasts(cfg: Config, e: Entry) {
    e.expires == if cfg.ttl.Some? then Some(e.created + cfg.ttl.value) else None
  }

  /** The entry a point carries, towards being served or towards the store. */
  function EntryAt(p: Point): Option<Entry> {
    match p
    case Judge(e) => Some(e)
    case SecondLook(e) => Some(e)
    case Touching(e) => Some(e)
    case Counting(e) => Some(e)
    case Calling(cached) => cached
    case Running(cached) => cached
    case Ran(cached, _) => cached
    case Comparing(e, _) => Some(e)
    case Setting(e) => Some(e)
    case Leaving(Served(e)) => Some(e)
    case _ => None
  }

  predicate Carries(cfg: Config, pc: Pc) {
    pc.In? && EntryAt(pc.at).Some? ==> Lasts(cfg, EntryAt(pc.at).value)
  }

  predicate StoreLasts(cfg: Config, store: map<Key, Entry>) {
    forall key :: key in store ==> Lasts(cfg, store[key])
  }

  predicate AllLast(cfg: Config, s: State) {
    StoreLasts(cfg, s.store) && forall t :: t in s.threads ==> Carries(cfg, s.threads[t])
  }

  /** Other processes commit under the same TTL. */
  predicate LastingPeer(cfg: Config, step: Step) {
    step.ForeignCommit? ==> Lasts(cfg, step.e)
  }

  lemma EarlyLasts(cfg: Config, f: Function, s: State, c: Call, p: Point, ch: Choice)
    requires StoreLasts(cfg, s.store) && Carries(cfg, In(c, p)) && (Looks(p) || Serves(p))
    ensures var move := CallMove(cfg, f, s, c, p, ch);
      Carries(cfg, move.pc) && (move.effect.Write? ==> Lasts(cfg, move.effect.e))
  {
  }

  lemma ClassifyLasts(cfg: Config, f: Function, s: State, c: Call, p: Point, ch: Choice)
    requires StoreLasts(cfg, s.store) && Carries(cfg, In(c, p)) && Classifies(p)
    ensures var move := CallMove(cfg, f, s, c, p, ch);
      Carries(cfg, move.pc) && (move.effect.Write? ==> Lasts(cfg, move.effect.e))
  {
  }

  lemma ComputeLasts(cfg: Config, f: Function, s: State, c: Call, p: Point, ch: Choice)
    requires StoreLasts(cfg, s.store) && Carries(cfg, In(c, p)) && Computes(p)
    ensures var move := CallMove(cfg, f, s, c, p, ch);
      Carries(cfg, move.pc) && (move.effect.Write? ==> Lasts(cfg, move.effect.e))
  {
  }

  lemma LateLasts(cfg: Config, f: Function, s: State, c: Call, p: Point, ch: Choice)
    requires StoreLasts(cfg, s.store) && Carries(cfg, In(c, p)) && (Prepares(p) || Finishes(p))
    ensures var move := CallMove(cfg, f, s, c, p, ch);
      Carries(cfg, move.pc) && (move.effect.Write? ==> Lasts(cfg, move.effect.e))
  {
  }

  lemma MoveLasts(cfg: Config, f: Function, s: State, pc: Pc, ch: Choice)
    requires StoreLasts(cfg, s.store) && Carries(cfg, pc)
    ensures var move := ThreadMove(cfg, f, s, pc, ch);
      Carries(cfg, move.pc) && (move.effect.Write? ==> Lasts(cfg, move.effect.e))
  {
    if pc.In? {
      if Looks(pc.at) || Serves(pc.at) {
        EarlyLasts(cfg, f, s, pc.c, pc.at, ch);
      } else if Classifies(pc.at) {
        ClassifyLasts(cfg, f, s, pc.c, pc.at, ch);
      } else if Computes(pc.at) {
        ComputeLasts(cfg, f, s, pc.c, pc.at, ch);
      } else {
        LateLasts(cfg, f, s, pc.c, pc.at, ch);
      }
    }
  }

  lemma EnactLasts(cfg: Config, s: State, t: Tid, effect: Effect)
    requires StoreLasts(cfg, s.store) && (effect.Write? ==> Lasts(cfg, effect.e))
    ensures StoreLasts(cfg, Enact(cfg, s, t, effect).store) && Enact(cfg, s, t, effect).threads == s.threads
  {
  }

  lemma LastsKept(cfg: Config, f: Function, s: State, step: Step)
    requires AllLast(cfg, s) && Enabled(cfg, s, step) && LastingPeer(cfg, step)
    ensures AllLast(cfg, Next(cfg, f, s, step))
  {
    match step {
      case Go(t, ch) =>
        MoveLasts(cfg, f, s, s.threads[t], ch);
        EnactLasts(cfg, s, t, ThreadMove(cfg, f, s, s.threads[t], ch).effect);
      case ChangeDep(dep) =>
        forall t | t in s.threads ensures Carries(cfg, Tear(s.threads[t])) {
          assert Carries(cfg, s.threads[t]);
        }
      case _ =>
    }
  }

  lemma {:induction false} LastsHolds(cfg: Config, f: Function, trace: seq<State>, steps: seq<Step>, n: nat)
    requires Behavior(cfg, f, trace, steps) && n < |trace|
    requires Quiescent(trace[0]) && StoreLasts(cfg, trace[0].store)
    requires forall i :: 0 <= i < |steps| ==> LastingPeer(cfg, steps[i])
    ensures AllLast(cfg, trace[n])
  {
    if n > 0 {
      LastsHolds(cfg, f, trace, steps, n - 1);
      LastsKept(cfg, f, trace[n - 1], steps[n - 1]);
    }
  }

  /** What a commit stores is servable, to a call with the same fingerprints, at every
    reading before the commit's plus the TTL, and at none from there on. */
  lemma CommitLastsItsTtl(cfg: Config, s: State, s': State, s'': State, after: State, c: Call, other: Call, v: Value,
      stamping: Choice, sizing: Choice, setting: Choice, judging: Choice)
    requires !stamping.raises && !judging.raises && setting.ok
    ensures var sized := PrepareMove(cfg, s, c, Stamping(v), stamping).pc;
      && sized.In? && sized.at.Sizing?
      && var t := if stamping.reading > s.last then stamping.reading else s.last;
         var ready := PrepareMove(cfg, s', c, sized.at, sizing).pc;
         ready.In? && ready.at.Setting? ==>
           var write := PrepareMove(cfg, s'', c, ready.at, setting).effect;
           && write.Write? && write.key == c.key && write.e.value == v && write.e.created == t
           && var pc := LookMove(cfg, after, other, Judge(write.e), judging).pc;
              pc.In? && pc.at == SecondLook(write.e) <==>
                && (cfg.ttl.Some? ==> after.last < t + cfg.ttl.value && judging.reading < t + cfg.ttl.value)
                && (cfg.tracked ==> c.start == other.start)
  {
  }

  /** An entry past the judgement expires after the reading it was judged by. */
  predicate Judged(pc: Pc) {
    pc.In? && !pc.at.Judge? && !pc.at.Setting? && EntryAt(pc.at).Some? ==>
      var e := EntryAt(pc.at).value; e.expires.Some? ==> pc.c.at < e.expires.value
  }

  lemma EarlyJudges(cfg: Config, f: Function, s: State, c: Call, p: Point, ch: Choice)
    requires Judged(In(c, p)) && (Looks(p) || Serves(p))
    ensures var move := CallMove(cfg, f, s, c, p, ch); Judged(move.pc)
  {
  }

  lemma ClassifyJudges(cfg: Config, f: Function, s: State, c: Call, p: Point, ch: Choice)
    requires Judged(In(c, p)) && Classifies(p)
    ensures var move := CallMove(cfg, f, s, c, p, ch); Judged(move.pc)
  {
  }

  lemma ComputeJudges(cfg: Config, f: Function, s: State, c: Call, p: Point, ch: Choice)
    requires Judged(In(c, p)) && Computes(p)
    ensures var move := CallMove(cfg, f, s, c, p, ch); Judged(move.pc)
  {
  }

  lemma LateJudges(cfg: Config, f: Function, s: State, c: Call, p: Point, ch: Choice)
    requires Judged(In(c, p)) && (Prepares(p) || Finishes(p))
    ensures var move := CallMove(cfg, f, s, c, p, ch); Judged(move.pc)
  {
  }

  lemma MoveJudges(cfg: Config, f: Function, s: State, pc: Pc, ch: Choice)
    requires Judged(pc)
    ensures Judged(ThreadMove(cfg, f, s, pc, ch).pc)
  {
    if pc.In? {
      if Looks(pc.at) || Serves(pc.at) {
        EarlyJudges(cfg, f, s, pc.c, pc.at, ch);
      } else if Classifies(pc.at) {
        ClassifyJudges(cfg, f, s, pc.c, pc.at, ch);
      } else if Computes(pc.at) {
        ComputeJudges(cfg, f, s, pc.c, pc.at, ch);
      } else {
        LateJudges(cfg, f, s, pc.c, pc.at, ch);
      }
    }
  }

  lemma JudgedKept(cfg: Config, f: Function, s: State, step: Step, t: Tid)
    requires Enabled(cfg, s, step) && (t in s.threads ==> Judged(s.threads[t]))
    ensures t in Next(cfg, f, s, step).threads ==> Judged(Next(cfg, f, s, step).threads[t])
  {
    if step.Go? {
      if step.t == t {
        MoveJudges(cfg, f, s, s.threads[t], step.choice);
      }
      EnactThreads(cfg, s, step.t, ThreadMove(cfg, f, s, s.threads[step.t], step.choice).effect);
    }
  }

  lemma EnactThreads(cfg: Config, s: State, t: Tid, effect: Effect)
    ensures Enact(cfg, s, t, effect).threads == s.threads
  {
  }

  lemma {:induction false} JudgedHolds(cfg: Config, f: Function, trace: seq<State>, steps: seq<Step>, n: nat, t: Tid)
    requires Behavior(cfg, f, trace, steps) && n < |trace| && Quiescent(trace[0])
    ensures t in trace[n].threads ==> Judged(trace[n].threads[t])
  {
    if n > 0 {
      JudgedHolds(cfg, f, trace, steps, n - 1, t);
      JudgedKept(cfg, f, trace[n - 1], steps[n - 1], t);
    }
  }

  /** In every run, whatever check serves an entry, it does so at a reading before that
    of the entry's commit plus the TTL. */
  lemma ServedWithinTtl(cfg: Config, f: Function, trace: seq<State>, steps: seq<Step>, n: nat, t: Tid)
    requires Behavior(cfg, f, trace, steps) && n < |trace|
    requires Quiescent(trace[0]) && StoreLasts(cfg, trace[0].store)
    requires forall i :: 0 <= i < |steps| ==> LastingPeer(cfg, steps[i])
    requires t in trace[n].threads && trace[n].threads[t].In? && trace[n].threads[t].at.Leaving?
    requires trace[n].threads[t].at.r.Served? && cfg.ttl.Some?
    ensures trace[n].threads[t].c.at < trace[n].threads[t].at.r.entry.created + cfg.ttl.value
  {
    LastsHolds(cfg, f, trace, steps, n);
    JudgedHolds(cfg, f, trace, steps, n, t);
  }
}
