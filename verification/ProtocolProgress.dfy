/** Progress: in every reachable state of the protocol machine some thread can step
  unless all are idle, and each step of a call takes it nearer to its end, but for a
  waiter's repeated probe, whose number `Coordinate` bounds. */
module ProtocolProgress {
  import opened Protocol

  /** The thread that a step of `t` waits for: the holder of the lock it asks for, or
    `t` itself. */
  function Stepper(s: State, t: Tid): Tid
    requires t in s.threads
  {
    match s.threads[t]
    case Queued(c) => if c.key in s.holder then s.holder[c.key] else t
    case InvQueued(key) => if key in s.holder then s.holder[key] else t
    case _ => t
  }

  lemma StepperSteps(cfg: Config, s: State, t: Tid, ch: Choice)
    requires Locks(s) && t in s.threads && s.threads[t] != Idle
    ensures Enabled(cfg, s, Go(Stepper(s, t), ch))
  {
  }

  /** The locks never deadlock: whoever is not idle can step, or waits for a lock whose
    holder can. */
  lemma NoDeadlock(cfg: Config, f: Function, trace: seq<State>, steps: seq<Step>, n: nat, t: Tid, ch: Choice)
    requires Behavior(cfg, f, trace, steps) && n < |trace|
    requires Quiescent(trace[0]) && trace[0].holder == map[]
    requires t in trace[n].threads && trace[n].threads[t] != Idle
    ensures Enabled(cfg, trace[n], Go(Stepper(trace[n], t), ch))
  {
    LocksHold(cfg, f, trace, steps, n);
    StepperSteps(cfg, trace[n], t, ch);
  }

  // ------------------------------------------------------------- nearer to the end

  /** How far a freshness check has to go. */
  function LookRank(p: Point): nat {
    match p
    case FirstLook => 4
    case Get => 3
    case Judge(_) => 2
    case _ => 1
  }

  function StageRank(stage: Stage): nat {
    match stage
    case Fast => 80
    case Verify => 70
    case Locked => 60
    case Probe => 50
  }

  function ServeRank(stage: Stage, p: Point): nat {
    match p
    case Touching(_) => if stage == Probe then 2 else 3
    case Counting(_) => if stage == Probe then 3 else 2
    case _ => 1
  }

  function ClassifyRank(p: Point): nat {
    match p
    case Classify => 46
    case Purge => 45
    case Reget => 45
    case Unquarantine => 44
    case DropStale(_) => 44
    case Forgetting(after) => if after.AfterMismatch? then 34 else 43
    case Attribute(_) => 42
    case PopMarker => 42
    case _ => 41
  }

  function ComputeRank(p: Point): nat {
    match p
    case Calling(_) => 40
    case Running(_) => 39
    case Ran(_, _) => 38
    case Comparing(_, _) => 37
    case _ => 36
  }

  function PrepareRank(p: Point): nat {
    match p
    case Recheck(_) => 33
    case Stamping(_) => 32
    case Sizing(_, _) => 31
    case Setting(_) => 30
    case Admitting(_) => 29
    case _ => 28
  }

  function FinishRank(p: Point): nat {
    match p
    case Evicting(_, _) => 27
    case Ledgering(_, _) => 27
    case Unledgering(_) => 26
    case Snapshotting(_) => 25
    case Draining(_, _) => 24
    case Drained(_, _) => 24
    case Recording(_) => 23
    case _ => 22
  }

  function PointRank(stage: Stage, p: Point): nat {
    if Looks(p) then StageRank(stage) + LookRank(p)
    else if Serves(p) then ServeRank(stage, p)
    else if Classifies(p) then ClassifyRank(p)
    else if Computes(p) then ComputeRank(p)
    else if Prepares(p) then PrepareRank(p)
    else FinishRank(p)
  }

  function InvRank(p: InvPoint): nat {
    match p
    case InvDelete => 5
    case InvQuarantine => 4
    case InvForget => 3
    case InvCount => 2
    case InvLeaving => 1
  }

  function Rank(pc: Pc): nat {
    match pc
    case Idle => 0
    case Queued(c) => StageRank(c.stage) + 5
    case In(c, p) => PointRank(c.stage, p)
    case InvQueued(_) => 6
    case Inv(_, p) => InvRank(p)
  }

  /** What is left of the loops over evicted and over pending keys. */
  function Rest(pc: Pc): nat {
    if !pc.In? then 0
    else
      match pc.at
      case Evicting(_, victims) => 2 * |victims| + 1
      case Ledgering(_, victims) => 2 * |victims|
      case Draining(_, batch) => 2 * |batch| + 1
      case Drained(_, batch) => 2 * |batch|
      case _ => 0
  }

  predicate Nearer(was: Pc, now: Pc) {
    Rank(now) < Rank(was) || (Rank(now) == Rank(was) && Rest(now) < Rest(was))
  }

  /** A waiter of a process flight finds nothing and looks again. */
  predicate ProbesAgain(was: Pc, ch: Choice, now: Pc) {
    was.In? && Looks(was.at) && was.c.stage == Probe && ch.again && now.In? && now.at.FirstLook? && now.c.stage == Probe
  }

  lemma LookNears(cfg: Config, s: State, c: Call, p: Point, ch: Choice)
    requires Looks(p)
    ensures var now := LookMove(cfg, s, c, p, ch).pc; ProbesAgain(In(c, p), ch, now) || Nearer(In(c, p), now)
  {
  }

  lemma ServeNears(c: Call, p: Point)
    requires Serves(p)
    ensures Nearer(In(c, p), ServeMove(c, p).pc)
  {
  }

  lemma ClassifyNears(s: State, c: Call, p: Point, ch: Choice)
    requires Classifies(p)
    ensures Nearer(In(c, p), ClassifyMove(s, c, p, ch).pc)
  {
  }

  lemma ComputeNears(f: Function, c: Call, p: Point, ch: Choice)
    requires Computes(p)
    ensures Nearer(In(c, p), ComputeMove(f, c, p, ch).pc)
  {
  }

  lemma PrepareNears(cfg: Config, s: State, c: Call, p: Point, ch: Choice)
    requires Prepares(p)
    ensures Nearer(In(c, p), PrepareMove(cfg, s, c, p, ch).pc)
  {
  }

  lemma EvictNears(s: State, c: Call, p: Point, ch: Choice)
    requires p.Evicting? || p.Ledgering?
    ensures Nearer(In(c, p), FinishMove(s, c, p, ch).pc)
  {
  }

  lemma DrainNears(s: State, c: Call, p: Point, ch: Choice)
    requires p.Draining? || p.Drained?
    ensures Nearer(In(c, p), FinishMove(s, c, p, ch).pc)
  {
  }

  lemma RecordNears(s: State, c: Call, p: Point, ch: Choice)
    requires p.Unledgering? || p.Snapshotting? || p.Recording? || p.Discarding?
    ensures Nearer(In(c, p), FinishMove(s, c, p, ch).pc)
  {
  }

  /** Every step of a thread takes it nearer to being idle, whatever fails or raises,
    unless it is a waiter that looks again. */
  lemma StepsNearTheEnd(cfg: Config, f: Function, s: State, pc: Pc, ch: Choice)
    requires pc != Idle
    ensures var now := ThreadMove(cfg, f, s, pc, ch).pc; ProbesAgain(pc, ch, now) || Nearer(pc, now)
  {
    if pc.In? {
      if Looks(pc.at) {
        LookNears(cfg, s, pc.c, pc.at, ch);
      } else if Serves(pc.at) {
        ServeNears(pc.c, pc.at);
      } else if Classifies(pc.at) {
        ClassifyNears(s, pc.c, pc.at, ch);
      } else if Computes(pc.at) {
        ComputeNears(f, pc.c, pc.at, ch);
      } else if Prepares(pc.at) {
        PrepareNears(cfg, s, pc.c, pc.at, ch);
      } else if pc.at.Evicting? || pc.at.Ledgering? {
        EvictNears(s, pc.c, pc.at, ch);
      } else if pc.at.Draining? || pc.at.Drained? {
        DrainNears(s, pc.c, pc.at, ch);
      } else {
        RecordNears(s, pc.c, pc.at, ch);
      }
    }
  }
}
