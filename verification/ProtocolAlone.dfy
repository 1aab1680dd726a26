/** What the protocol machine is for: a call, an invalidation or a verification whose
  thread takes its steps alone, from its first look to its end, does what the program
  promises, field by field.  The other files say what interleaving cannot break. */
module ProtocolAlone {
  import opened Ledgers
  import opened Policy
  import opened Protocol
  import opened Wrappers

  // ------------------------------------------------------------ one thread's steps

  /** A thread takes a step, if it can. */
  function Turn(cfg: Config, f: Function, s: State, t: Tid, ch: Choice): State {
    if Enabled(cfg, s, Go(t, ch)) then Next(cfg, f, s, Go(t, ch)) else s
  }

  /** It takes `n` steps, with the environment's choices from `i` on. */
  function Turns(cfg: Config, f: Function, s: State, t: Tid, env: nat -> Choice, i: nat, n: nat): State
    decreases n, 0
  {
    if n == 0 then s else More(cfg, f, s, t, env, i, n - 1)
  }

  /** One step of a thread there is, then `n` more. */
  function More(cfg: Config, f: Function, s: State, t: Tid, env: nat -> Choice, i: nat, n: nat): State
    decreases n, 2
  {
    if t in s.threads then Taken(cfg, f, s, t, env, i, n) else s
  }

  function Taken(cfg: Config, f: Function, s: State, t: Tid, env: nat -> Choice, i: nat, n: nat): State
    decreases n, 1
  {
    Turns(cfg, f, Turn(cfg, f, s, t, env(i)), t, env, i + 1, n)
  }

  /** The same on the shared state and the thread's place. */
  function Alone(cfg: Config, f: Function, s: State, t: Tid, pc: Pc, env: nat -> Choice, i: nat, n: nat): (State, Pc)
    decreases n, 0
  {
    if n == 0 then (s, pc) else Tried(cfg, f, s, t, pc, env, i, n - 1)
  }

  /** One step if there is one to take, then `n` more. */
  function Tried(cfg: Config, f: Function, s: State, t: Tid, pc: Pc, env: nat -> Choice, i: nat, n: nat): (State, Pc)
    decreases n, 2
  {
    if pc == Idle || !CanLock(s, pc) then (s, pc) else Moved(cfg, f, s, t, pc, env, i, n)
  }

  function Moved(cfg: Config, f: Function, s: State, t: Tid, pc: Pc, env: nat -> Choice, i: nat, n: nat): (State, Pc)
    decreases n, 1
  {
    var move := ThreadMove(cfg, f, s, pc, env(i));
    Alone(cfg, f, Enact(cfg, s, t, move.effect), t, move.pc, env, i + 1, n)
  }

  lemma EarlyIgnoresThreads(cfg: Config, s: State, t: Tid, pc: Pc, c: Call, p: Point, ch: Choice)
    ensures Looks(p) ==> LookMove(cfg, Place(s, t, pc), c, p, ch) == LookMove(cfg, s, c, p, ch)
    ensures Classifies(p) ==> ClassifyMove(Place(s, t, pc), c, p, ch) == ClassifyMove(s, c, p, ch)
  {
    if Looks(p) {
    } else if Classifies(p) {
    }
  }

  lemma LateIgnoresThreads(cfg: Config, s: State, t: Tid, pc: Pc, c: Call, p: Point, ch: Choice)
    ensures Prepares(p) ==> PrepareMove(cfg, Place(s, t, pc), c, p, ch) == PrepareMove(cfg, s, c, p, ch)
    ensures Finishes(p) ==> FinishMove(Place(s, t, pc), c, p, ch) == FinishMove(s, c, p, ch)
  {
    if Prepares(p) {
    } else if Finishes(p) {
    }
  }

  lemma CallMoveIgnoresThreads(cfg: Config, f: Function, s: State, t: Tid, pc: Pc, c: Call, p: Point, ch: Choice)
    ensures CallMove(cfg, f, Place(s, t, pc), c, p, ch) == CallMove(cfg, f, s, c, p, ch)
  {
    EarlyIgnoresThreads(cfg, s, t, pc, c, p, ch);
    LateIgnoresThreads(cfg, s, t, pc, c, p, ch);
  }

  lemma EnactIgnoresThreads(cfg: Config, s: State, t: Tid, pc: Pc, effect: Effect)
    ensures Enact(cfg, Place(s, t, pc), t, effect) == Place(Enact(cfg, s, t, effect), t, pc)
  {
  }

  lemma TurnMoves(cfg: Config, f: Function, s: State, t: Tid, pc: Pc, ch: Choice)
    requires pc != Idle && CanLock(s, pc)
    ensures var move := ThreadMove(cfg, f, s, pc, ch);
      Turn(cfg, f, Place(s, t, pc), t, ch) == Place(Enact(cfg, s, t, move.effect), t, move.pc)
  {
    if pc.In? {
      CallMoveIgnoresThreads(cfg, f, s, t, pc, pc.c, pc.at, ch);
    }
    var move := ThreadMove(cfg, f, s, pc, ch);
    EnactIgnoresThreads(cfg, s, t, pc, move.effect);
    var after := Enact(cfg, s, t, move.effect);
    assert Place(Place(after, t, pc), t, move.pc) == Place(after, t, move.pc);
  }

  lemma StuckTurn(cfg: Config, f: Function, s: State, t: Tid, pc: Pc, ch: Choice)
    requires pc == Idle || !CanLock(s, pc)
    ensures Turn(cfg, f, Place(s, t, pc), t, ch) == Place(s, t, pc)
  {
  }

  /** Where a thread is after its next step, or still is. */
  function Arrived(cfg: Config, f: Function, s: State, t: Tid, pc: Pc, ch: Choice): (State, Pc) {
    if pc == Idle || !CanLock(s, pc) then (s, pc)
    else
      var move := ThreadMove(cfg, f, s, pc, ch);
      (Enact(cfg, s, t, move.effect), move.pc)
  }

  lemma TurnArrives(cfg: Config, f: Function, s: State, t: Tid, pc: Pc, ch: Choice)
    ensures var r := Arrived(cfg, f, s, t, pc, ch); Turn(cfg, f, Place(s, t, pc), t, ch) == Place(r.0, t, r.1)
  {
    if pc == Idle || !CanLock(s, pc) {
      StuckTurn(cfg, f, s, t, pc, ch);
    } else {
      TurnMoves(cfg, f, s, t, pc, ch);
    }
  }

  /** One step: where the move leads, and what it does to the shared state. */
  lemma AloneStep(cfg: Config, f: Function, s: State, t: Tid, pc: Pc, env: nat -> Choice, i: nat, n: nat, next: Pc,
      s': State)
    requires n > 0 && pc != Idle && CanLock(s, pc)
    requires var move := ThreadMove(cfg, f, s, pc, env(i)); move.pc == next && Enact(cfg, s, t, move.effect) == s'
    ensures Alone(cfg, f, s, t, pc, env, i, n) == Alone(cfg, f, s', t, next, env, i + 1, n - 1)
  {
    assert Alone(cfg, f, s, t, pc, env, i, n) == Tried(cfg, f, s, t, pc, env, i, n - 1);
    assert Tried(cfg, f, s, t, pc, env, i, n - 1) == Moved(cfg, f, s, t, pc, env, i, n - 1);
  }

  lemma {:induction false} StuckAlone(
      cfg: Config, f: Function, s: State, t: Tid, pc: Pc, env: nat -> Choice, i: nat, n: nat)
    requires pc == Idle || !CanLock(s, pc)
    ensures Alone(cfg, f, s, t, pc, env, i, n) == (s, pc)
  {
    if n > 0 {
      assert Alone(cfg, f, s, t, pc, env, i, n) == Tried(cfg, f, s, t, pc, env, i, n - 1);
    }
  }

  lemma AloneArrives(cfg: Config, f: Function, s: State, t: Tid, pc: Pc, env: nat -> Choice, i: nat, n: nat)
    requires n > 0
    ensures var r := Arrived(cfg, f, s, t, pc, env(i));
      Alone(cfg, f, s, t, pc, env, i, n) == Alone(cfg, f, r.0, t, r.1, env, i + 1, n - 1)
  {
    if pc == Idle || !CanLock(s, pc) {
      StuckAlone(cfg, f, s, t, pc, env, i, n);
      StuckAlone(cfg, f, s, t, pc, env, i + 1, n - 1);
    } else {
      var move := ThreadMove(cfg, f, s, pc, env(i));
      AloneStep(cfg, f, s, t, pc, env, i, n, move.pc, Enact(cfg, s, t, move.effect));
    }
  }

  lemma TurnsStep(cfg: Config, f: Function, s: State, s': State, t: Tid, env: nat -> Choice, i: nat, n: nat)
    requires n > 0 && t in s.threads && Turn(cfg, f, s, t, env(i)) == s'
    ensures Turns(cfg, f, s, t, env, i, n) == Turns(cfg, f, s', t, env, i + 1, n - 1)
  {
    assert Turns(cfg, f, s, t, env, i, n) == More(cfg, f, s, t, env, i, n - 1);
    assert More(cfg, f, s, t, env, i, n - 1) == Taken(cfg, f, s, t, env, i, n - 1);
  }

  lemma FirstTurn(cfg: Config, f: Function, s: State, t: Tid, pc: Pc, env: nat -> Choice, i: nat, n: nat)
    returns (next: (State, Pc))
    requires n > 0
    ensures Alone(cfg, f, s, t, pc, env, i, n) == Alone(cfg, f, next.0, t, next.1, env, i + 1, n - 1)
    ensures Turns(cfg, f, Place(s, t, pc), t, env, i, n)
         == Turns(cfg, f, Place(next.0, t, next.1), t, env, i + 1, n - 1)
  {
    next := Arrived(cfg, f, s, t, pc, env(i));
    TurnArrives(cfg, f, s, t, pc, env(i));
    AloneArrives(cfg, f, s, t, pc, env, i, n);
    TurnsStep(cfg, f, Place(s, t, pc), Place(next.0, t, next.1), t, env, i, n);
  }

  lemma {:induction false} AloneIsTurns(
      cfg: Config, f: Function, s: State, t: Tid, pc: Pc, env: nat -> Choice, i: nat, n: nat)
    ensures var r := Alone(cfg, f, s, t, pc, env, i, n);
      Turns(cfg, f, Place(s, t, pc), t, env, i, n) == Place(r.0, t, r.1)
    decreases n
  {
    if n > 0 {
      var next := FirstTurn(cfg, f, s, t, pc, env, i, n);
      AloneIsTurns(cfg, f, next.0, t, next.1, env, i + 1, n - 1);
    }
  }

  // ------------------------------------------------------------------- the looks

  function Later(last: int, reading: int): int {
    if reading > last then reading else last
  }

  /** Nothing the thread asks for raises in its next steps. */
  predicate Calm(env: nat -> Choice, i: nat, n: nat) {
    forall j :: i <= j < i + n ==> !env(j).raises
  }

  /** Where a check goes that serves the entry. */
  function ServedAt(c: Call, e: Entry): Pc {
    match c.stage
    case Fast => In(c, Touching(e))
    case Locked => In(c, Touching(e))
    case Verify => In(c, Calling(Some(e)))
    case Probe => In(c, Counting(e))
  }

  /** A key in the store, unquarantined, whose entry is not past its expiry and has the
    call's fingerprints. */
  predicate Servable(cfg: Config, s: State, c: Call, now: int) {
    && c.key !in s.quarantine && c.key in s.store
    && (s.store[c.key].expires.Some? ==> now < s.store[c.key].expires.value)
    && (cfg.tracked ==> s.store[c.key].dep == c.start)
  }

  lemma LooksServe(cfg: Config, f: Function, s: State, t: Tid, c: Call, env: nat -> Choice, i: nat, n: nat)
    requires n >= 4 && Calm(env, i, 4) && Servable(cfg, s, c, Later(s.last, env(i + 2).reading))
    ensures var now := Later(s.last, env(i + 2).reading);
      Alone(cfg, f, s, t, In(c, FirstLook), env, i, n)
      == Alone(cfg, f, s.(last := now), t, ServedAt(c.(floor := Barrier(s.past, c.key), at := now), s.store[c.key]),
               env,
               i + 4, n - 4)
  {
    var e, now := s.store[c.key], Later(s.last, env(i + 2).reading);
    var d := c.(floor := Barrier(s.past, c.key));
    var d' := d.(at := now);
    AloneStep(cfg, f, s, t, In(c, FirstLook), env, i, n, In(d, Get), s);
    AloneStep(cfg, f, s, t, In(d, Get), env, i + 1, n - 1, In(d, Judge(e)), s);
    AloneStep(cfg, f, s, t, In(d, Judge(e)), env, i + 2, n - 2, In(d', SecondLook(e)), s.(last := now));
    AloneStep(cfg, f, s.(last := now), t, In(d', SecondLook(e)), env, i + 3, n - 3, ServedAt(d', e), s.(last := now));
  }

  lemma LooksFindNothing(cfg: Config, f: Function, s: State, t: Tid, c: Call, env: nat -> Choice, i: nat, n: nat)
    requires n >= 2 && Calm(env, i, 2) && c.key !in s.quarantine && c.key !in s.store
    ensures var d := c.(floor := Barrier(s.past, c.key));
      Alone(cfg, f, s, t, In(c, FirstLook), env, i, n)
      == Alone(cfg, f, s, t, NotServed(cfg, d, env(i + 1).again), env, i + 2, n - 2)
  {
    var d := c.(floor := Barrier(s.past, c.key));
    AloneStep(cfg, f, s, t, In(c, FirstLook), env, i, n, In(d, Get), s);
    AloneStep(cfg, f, s, t, In(d, Get), env, i + 1, n - 1, NotServed(cfg, d, env(i + 1).again), s);
  }

  lemma LooksFindQuarantine(cfg: Config, f: Function, s: State, t: Tid, c: Call, env: nat -> Choice, i: nat, n: nat)
    requires n >= 1 && Calm(env, i, 1) && c.key in s.quarantine
    ensures var d := c.(floor := Barrier(s.past, c.key));
      Alone(cfg, f, s, t, In(c, FirstLook), env, i, n)
      == Alone(cfg, f, s, t, NotServed(cfg, d, env(i).again), env, i + 1, n - 1)
  {
    var d := c.(floor := Barrier(s.past, c.key));
    AloneStep(cfg, f, s, t, In(c, FirstLook), env, i, n, NotServed(cfg, d, env(i).again), s);
  }

  /** What a look at a stale entry leaves of the shared state. */
  function FoundStale(s: State, c: Call, now: int): State {
    s.(last := now, past := if c.stage == Fast then s.past else Broken(s.past, c.key))
  }

  lemma LooksFindStale(cfg: Config, f: Function, s: State, t: Tid, c: Call, env: nat -> Choice, i: nat, n: nat)
    requires n >= 3 && Calm(env, i, 3) && c.key !in s.quarantine && c.key in s.store
    requires !Servable(cfg, s, c, Later(s.last, env(i + 2).reading))
    ensures var now := Later(s.last, env(i + 2).reading); var d := c.(floor := Barrier(s.past, c.key), at := now);
      Alone(cfg, f, s, t, In(c, FirstLook), env, i, n)
      == Alone(cfg, f, FoundStale(s, c, now), t, NotServed(cfg, d, env(i + 2).again), env, i + 3, n - 3)
  {
    var e := s.store[c.key];
    var d := c.(floor := Barrier(s.past, c.key));
    var now := Later(s.last, env(i + 2).reading);
    AloneStep(cfg, f, s, t, In(c, FirstLook), env, i, n, In(d, Get), s);
    AloneStep(cfg, f, s, t, In(d, Get), env, i + 1, n - 1, In(d, Judge(e)), s);
    AloneStep(cfg, f, s, t, In(d, Judge(e)), env, i + 2, n - 2,
              NotServed(cfg, d.(at := now), env(i + 2).again), FoundStale(s, c, now));
  }

  // ---------------------------------------------------------------------- a hit

  function Touched(cfg: Config, budget: seq<Slot>, key: Key): seq<Slot> {
    if cfg.maxBytes.Some? then Touch(budget, key) else budget
  }

  /** A call whose key has a servable entry returns its value in seven steps, counts one
    hit, refreshes the key's recency and changes nothing else. */
  lemma HitAlone(cfg: Config, f: Function, s: State, t: Tid, c: Call, env: nat -> Choice, n: nat)
    requires c.stage == Fast && Calm(env, 0, 4) && Servable(cfg, s, c, Later(s.last, env(2).reading)) && n == 7
    ensures Turns(cfg, f, Place(s, t, In(c, FirstLook)), t, env, 0, n)
         == Place(s.(last := if env(2).reading > s.last then env(2).reading else s.last,
                     budget := if cfg.maxBytes.Some? then Touch(s.budget, c.key) else s.budget,
                     tally := s.tally.(hits := s.tally.hits + 1)), t, Idle)
  {
    var now := Later(s.last, env(2).reading);
    var d := c.(floor := Barrier(s.past, c.key), at := now);
    HitSteps(cfg, f, s, t, c, env, n);
    LeaveStep(cfg, f, HitState(cfg, s, c, now), t, d, Served(s.store[c.key]), env, 6, 1);
    AloneIsTurns(cfg, f, s, t, In(c, FirstLook), env, 0, n);
  }

  /** Before the last of them it holds the stored entry to return. */
  lemma HitReturns(cfg: Config, f: Function, s: State, t: Tid, c: Call, env: nat -> Choice, n: nat)
    requires c.stage == Fast && Calm(env, 0, 4) && Servable(cfg, s, c, Later(s.last, env(2).reading)) && n == 6
    ensures var before := Turns(cfg, f, Place(s, t, In(c, FirstLook)), t, env, 0, n);
      t in before.threads && before.threads[t].In? && before.threads[t].at == Leaving(Served(s.store[c.key]))
  {
    HitSteps(cfg, f, s, t, c, env, n);
    AloneIsTurns(cfg, f, s, t, In(c, FirstLook), env, 0, n);
  }

  /** What a hit leaves of the shared state. */
  function HitState(cfg: Config, s: State, c: Call, now: int): State {
    s.(last := now, budget := Touched(cfg, s.budget, c.key), tally := s.tally.(hits := s.tally.hits + 1))
  }

  lemma TouchStep(cfg: Config, f: Function, s: State, t: Tid, c: Call, e: Entry, env: nat -> Choice, i: nat, n: nat)
    requires n > 0
    ensures Alone(cfg, f, s, t, In(c, Touching(e)), env, i, n)
         == Alone(cfg, f, s.(budget := Touched(cfg, s.budget, c.key)), t,
                  In(c, if c.stage == Probe || c.stage == Verify then Leaving(Served(e)) else Counting(e)), env,
                  i + 1, n - 1)
  {
    var next := In(c, if c.stage == Probe || c.stage == Verify then Leaving(Served(e)) else Counting(e));
    AloneStep(cfg, f, s, t, In(c, Touching(e)), env, i, n, next, s.(budget := Touched(cfg, s.budget, c.key)));
  }

  lemma CountStep(cfg: Config, f: Function, s: State, t: Tid, c: Call, e: Entry, env: nat -> Choice, i: nat, n: nat)
    requires n > 0 && c.stage != Probe
    ensures Alone(cfg, f, s, t, In(c, Counting(e)), env, i, n)
         == Alone(cfg, f, s.(tally := s.tally.(hits := s.tally.hits + 1)), t, In(c, Leaving(Served(e))), env, i + 1,
                  n - 1)
  {
    AloneStep(cfg, f, s, t, In(c, Counting(e)), env, i, n, In(c, Leaving(Served(e))),
              s.(tally := s.tally.(hits := s.tally.hits + 1)));
  }

  lemma ServeSteps(cfg: Config, f: Function, s: State, t: Tid, c: Call, e: Entry, env: nat -> Choice, i: nat, n: nat)
    requires n >= 2 && c.stage != Probe && c.stage != Verify
    ensures Alone(cfg, f, s, t, In(c, Touching(e)), env, i, n)
         == Alone(cfg, f, HitState(cfg, s, c, s.last), t, In(c, Leaving(Served(e))), env, i + 2, n - 2)
  {
    TouchStep(cfg, f, s, t, c, e, env, i, n);
    CountStep(cfg, f, s.(budget := Touched(cfg, s.budget, c.key)), t, c, e, env, i + 1, n - 1);
  }

  lemma HitSteps(cfg: Config, f: Function, s: State, t: Tid, c: Call, env: nat -> Choice, n: nat)
    requires c.stage == Fast && Calm(env, 0, 4) && Servable(cfg, s, c, Later(s.last, env(2).reading)) && n >= 6
    ensures var now := Later(s.last, env(2).reading); var d := c.(floor := Barrier(s.past, c.key), at := now);
      Alone(cfg, f, s, t, In(c, FirstLook), env, 0, n)
      == Alone(cfg, f, HitState(cfg, s, c, now), t, In(d, Leaving(Served(s.store[c.key]))), env, 6, n - 6)
  {
    var e, now := s.store[c.key], Later(s.last, env(2).reading);
    var d := c.(floor := Barrier(s.past, c.key), at := now);
    LooksServe(cfg, f, s, t, c, env, 0, n);
    ServeSteps(cfg, f, s.(last := now), t, d, e, env, 4, n - 4);
  }

  /** The last step gives back what the thread holds. */
  lemma LeaveStep(
      cfg: Config, f: Function, s: State, t: Tid, c: Call, r: Protocol.Result, env: nat -> Choice, i: nat, n: nat)
    requires n > 0
    ensures Alone(cfg, f, s, t, In(c, Leaving(r)), env, i, n)
         == (s.(holder := if c.stage == Fast then s.holder else s.holder - {c.key}), Idle)
  {
    var s' := s.(holder := if c.stage == Fast then s.holder else s.holder - {c.key});
    AloneStep(cfg, f, s, t, In(c, Leaving(r)), env, i, n, Idle, s');
  }

  // ------------------------------------------------------- one step at each point

  function Forgotten(cfg: Config, budget: seq<Slot>, key: Key): seq<Slot> {
    if cfg.maxBytes.Some? then Forget(budget, key) else budget
  }

  function Deleted(s: State, key: Key): State {
    s.(store := s.store - {key}, past := Broken(s.past, key))
  }

  /** Where a call goes once the key has left the budget. */
  function Following(after: After): Point {
    match after
    case AfterPurge => CountMiss(Invalidated)
    case AfterStale(e) => Attribute(e)
    case AfterMismatch(v) => Recheck(v)
  }

  /** What a stale entry is a miss for: its expiry, if the clock has reached it, or else
    its dependencies. */
  function Blamed(e: Entry, now: int): Miss {
    if e.expires.Some? && e.expires.value <= now then Expired else DependencyChanged
  }

  /** The estimate lets the value into the budget. */
  predicate SizeFits(cfg: Config, size: Option<int>) {
    cfg.maxBytes.Some? ==> size.Some? && 0 <= size.value <= cfg.maxBytes.value
  }

  /** The entry a commit at a reading makes, not stamped yet. */
  function Made(cfg: Config, c: Call, v: Value, now: int, size: Option<int>): Entry
    requires SizeFits(cfg, size)
  {
    Entry(v, c.start, now, if cfg.ttl.Some? then Some(now + cfg.ttl.value) else None,
          if cfg.maxBytes.Some? then size.value else 0, 0)
  }

  function Written(s: State, key: Key, e: Entry): State {
    s.(store := s.store[key := e.(stamp := s.past.stamp)], past := s.past.(stamp := s.past.stamp + 1))
  }

  function Admitted(cfg: Config, s: State, key: Key, size: nat): State {
    if cfg.maxBytes.Some? then s.(budget := Admit(s.budget, key, size, cfg.maxBytes.value)) else s
  }

  /** The keys an admission evicts. */
  function Displaced(cfg: Config, budget: seq<Slot>, key: Key, size: nat): seq<Key> {
    if cfg.maxBytes.Some? then KeysOf(Evicted(budget, key, size, cfg.maxBytes.value)) else []
  }

  function Skipped(s: State, c: Call): State {
    s.(tally := s.tally.(skipped := s.tally.skipped + 1), past := Broken(s.past, c.key))
  }

  function Counted(y: Tally, miss: Miss): Tally {
    y.(notFound := y.notFound + if miss == NotFound then 1 else 0,
       expired := y.expired + if miss == Expired then 1 else 0,
       invalidated := y.invalidated + if miss == Invalidated then 1 else 0,
       dependencyChanged := y.dependencyChanged + if miss == DependencyChanged then 1 else 0)
  }

  lemma MissScored(y: Tally, miss: Miss)
    ensures Scored(y, Missed(miss)) == Counted(y, miss)
  {
    match miss {
      case NotFound =>
      case Expired =>
      case Invalidated =>
      case DependencyChanged =>
    }
  }

  lemma CountedInvalidated(y: Tally)
    ensures Counted(y, Invalidated) == y.(invalidated := y.invalidated + 1)
  {
  }

  lemma CountMissStep(
      cfg: Config, f: Function, s: State, t: Tid, c: Call, miss: Miss, env: nat -> Choice, i: nat, n: nat)
    requires n > 0
    ensures Alone(cfg, f, s, t, In(c, CountMiss(miss)), env, i, n)
         == Alone(cfg, f, s.(tally := Counted(s.tally, miss)), t, In(c, Calling(None)), env, i + 1, n - 1)
  {
    MissScored(s.tally, miss);
    AloneStep(cfg, f, s, t, In(c, CountMiss(miss)), env, i, n, In(c, Calling(None)),
              s.(tally := Counted(s.tally, miss)));
  }

  lemma ClassifyStep(cfg: Config, f: Function, s: State, t: Tid, c: Call, env: nat -> Choice, i: nat, n: nat)
    requires n > 0
    ensures Alone(cfg, f, s, t, In(c, Classify), env, i, n)
         == Alone(cfg, f, s, t, In(c, if c.key in s.quarantine then Purge else Reget), env, i + 1, n - 1)
  {
    AloneStep(cfg, f, s, t, In(c, Classify), env, i, n, In(c, if c.key in s.quarantine then Purge else Reget), s);
  }

  lemma RegetStep(cfg: Config, f: Function, s: State, t: Tid, c: Call, env: nat -> Choice, i: nat, n: nat)
    requires n > 0 && !env(i).raises
    ensures Alone(cfg, f, s, t, In(c, Reget), env, i, n)
         == Alone(cfg, f, s, t, In(c, if c.key in s.store then DropStale(s.store[c.key]) else PopMarker), env, i + 1,
                  n - 1)
  {
    AloneStep(cfg, f, s, t, In(c, Reget), env, i, n,
              In(c, if c.key in s.store then DropStale(s.store[c.key]) else PopMarker), s);
  }

  lemma PopStep(cfg: Config, f: Function, s: State, t: Tid, c: Call, env: nat -> Choice, i: nat, n: nat)
    requires n > 0
    ensures Alone(cfg, f, s, t, In(c, PopMarker), env, i, n)
         == Alone(cfg, f, s, t, In(c, CountMiss(if env(i).ok then Invalidated else NotFound)), env, i + 1, n - 1)
  {
    AloneStep(cfg, f, s, t, In(c, PopMarker), env, i, n,
              In(c, CountMiss(if env(i).ok then Invalidated else NotFound)), s);
  }

  lemma DropStep(cfg: Config, f: Function, s: State, t: Tid, c: Call, e: Entry, env: nat -> Choice, i: nat, n: nat)
    requires n > 0 && env(i).ok && c.key in s.store
    ensures Alone(cfg, f, s, t, In(c, DropStale(e)), env, i, n)
         == Alone(cfg, f, Deleted(s, c.key), t, In(c, Forgetting(AfterStale(e))), env, i + 1, n - 1)
  {
    AloneStep(cfg, f, s, t, In(c, DropStale(e)), env, i, n, In(c, Forgetting(AfterStale(e))), Deleted(s, c.key));
  }

  lemma ForgetStep(
      cfg: Config, f: Function, s: State, t: Tid, c: Call, after: After, env: nat -> Choice, i: nat, n: nat)
    requires n > 0
    ensures Alone(cfg, f, s, t, In(c, Forgetting(after)), env, i, n)
         == Alone(cfg, f, s.(budget := Forgotten(cfg, s.budget, c.key)), t, In(c, Following(after)), env, i + 1, n - 1)
  {
    AloneStep(cfg, f, s, t, In(c, Forgetting(after)), env, i, n, In(c, Following(after)),
              s.(budget := Forgotten(cfg, s.budget, c.key)));
  }

  lemma AttributeStep(
      cfg: Config, f: Function, s: State, t: Tid, c: Call, e: Entry, env: nat -> Choice, i: nat, n: nat)
    requires n > 0 && !env(i).raises
    ensures Alone(cfg, f, s, t, In(c, Attribute(e)), env, i, n)
         == Alone(cfg, f, s.(last := Later(s.last, env(i).reading)), t,
                  In(c, CountMiss(Blamed(e, Later(s.last, env(i).reading)))), env, i + 1, n - 1)
  {
    AloneStep(cfg, f, s, t, In(c, Attribute(e)), env, i, n,
              In(c, CountMiss(Blamed(e, Later(s.last, env(i).reading)))), s.(last := Later(s.last, env(i).reading)));
  }

  lemma PurgeStep(cfg: Config, f: Function, s: State, t: Tid, c: Call, env: nat -> Choice, i: nat, n: nat)
    requires n > 0 && env(i).ok && c.key in s.store
    ensures Alone(cfg, f, s, t, In(c, Purge), env, i, n)
         == Alone(cfg, f, Deleted(s, c.key), t, In(c, Unquarantine), env, i + 1, n - 1)
  {
    AloneStep(cfg, f, s, t, In(c, Purge), env, i, n, In(c, Unquarantine), Deleted(s, c.key));
  }

  lemma PurgeFailsStep(cfg: Config, f: Function, s: State, t: Tid, c: Call, env: nat -> Choice, i: nat, n: nat)
    requires n > 0 && !env(i).ok
    ensures Alone(cfg, f, s, t, In(c, Purge), env, i, n)
         == Alone(cfg, f, s.(past := s.past.(deleteFailed := true)), t, In(c, Forgetting(AfterPurge)), env, i + 1,
                  n - 1)
  {
    AloneStep(cfg, f, s, t, In(c, Purge), env, i, n, In(c, Forgetting(AfterPurge)),
              s.(past := s.past.(deleteFailed := true)));
  }

  lemma UnquarantineStep(cfg: Config, f: Function, s: State, t: Tid, c: Call, env: nat -> Choice, i: nat, n: nat)
    requires n > 0
    ensures Alone(cfg, f, s, t, In(c, Unquarantine), env, i, n)
         == Alone(cfg, f, s.(quarantine := s.quarantine - {c.key}), t, In(c, Forgetting(AfterPurge)), env, i + 1, n - 1)
  {
    AloneStep(cfg, f, s, t, In(c, Unquarantine), env, i, n, In(c, Forgetting(AfterPurge)),
              s.(quarantine := s.quarantine - {c.key}));
  }

  lemma CallStep(cfg: Config, f: Function, s: State, t: Tid, c: Call, env: nat -> Choice, i: nat, n: nat)
    requires n > 0
    ensures Alone(cfg, f, s, t, In(c, Calling(None)), env, i, n)
         == Alone(cfg, f, s.(past := s.past.(armed := s.past.armed + {c.key})), t, In(c, Running(None)), env, i + 1,
                  n - 1)
  {
    AloneStep(cfg, f, s, t, In(c, Calling(None)), env, i, n, In(c, Running(None)),
              s.(past := s.past.(armed := s.past.armed + {c.key})));
  }

  lemma RunStep(
      cfg: Config, f: Function, s: State, t: Tid, c: Call, cached: Option<Entry>, env: nat -> Choice, i: nat, n: nat)
    requires n > 0 && env(i).ok && !c.torn
    ensures Alone(cfg, f, s, t, In(c, Running(cached)), env, i, n)
         == Alone(cfg, f, s, t, In(c, Ran(cached, f(c.key, c.start))), env, i + 1, n - 1)
  {
    AloneStep(cfg, f, s, t, In(c, Running(cached)), env, i, n, In(c, Ran(cached, f(c.key, c.start))), s);
  }

  lemma RanStep(cfg: Config, f: Function, s: State, t: Tid, c: Call, v: Value, env: nat -> Choice, i: nat, n: nat)
    requires n > 0
    ensures Alone(cfg, f, s, t, In(c, Ran(None, v)), env, i, n)
         == Alone(cfg, f, s.(tally := s.tally.(computes := s.tally.computes + 1)), t, In(c, Recheck(v)), env, i + 1,
                  n - 1)
  {
    AloneStep(cfg, f, s, t, In(c, Ran(None, v)), env, i, n, In(c, Recheck(v)),
              s.(tally := s.tally.(computes := s.tally.computes + 1)));
  }

  lemma RecheckStep(cfg: Config, f: Function, s: State, t: Tid, c: Call, v: Value, env: nat -> Choice, i: nat, n: nat)
    requires n > 0 && !env(i).raises && (cfg.tracked ==> s.dep == c.start)
    ensures Alone(cfg, f, s, t, In(c, Recheck(v)), env, i, n)
         == Alone(cfg, f, s, t, In(c, Stamping(v)), env, i + 1, n - 1)
  {
    AloneStep(cfg, f, s, t, In(c, Recheck(v)), env, i, n, In(c, Stamping(v)), s);
  }

  lemma RaceStep(cfg: Config, f: Function, s: State, t: Tid, c: Call, v: Value, env: nat -> Choice, i: nat, n: nat)
    requires n > 0 && !env(i).raises && cfg.tracked && s.dep != c.start
    ensures Alone(cfg, f, s, t, In(c, Recheck(v)), env, i, n)
         == Alone(cfg, f, s, t, In(c, Skipping(v)), env, i + 1, n - 1)
  {
    AloneStep(cfg, f, s, t, In(c, Recheck(v)), env, i, n, In(c, Skipping(v)), s);
  }

  lemma StampStep(cfg: Config, f: Function, s: State, t: Tid, c: Call, v: Value, env: nat -> Choice, i: nat, n: nat)
    requires n > 0 && !env(i).raises
    ensures Alone(cfg, f, s, t, In(c, Stamping(v)), env, i, n)
         == Alone(cfg, f, s.(last := Later(s.last, env(i).reading)), t,
                  In(c, Sizing(v, Later(s.last, env(i).reading))), env, i + 1, n - 1)
  {
    AloneStep(cfg, f, s, t, In(c, Stamping(v)), env, i, n, In(c, Sizing(v, Later(s.last, env(i).reading))),
              s.(last := Later(s.last, env(i).reading)));
  }

  lemma SizeStep(
      cfg: Config, f: Function, s: State, t: Tid, c: Call, v: Value, now: int, env: nat -> Choice, i: nat, n: nat)
    requires n > 0 && SizeFits(cfg, env(i).size)
    ensures Alone(cfg, f, s, t, In(c, Sizing(v, now)), env, i, n)
         == Alone(cfg, f, s, t, In(c, Setting(Made(cfg, c, v, now, env(i).size))), env, i + 1, n - 1)
  {
    AloneStep(cfg, f, s, t, In(c, Sizing(v, now)), env, i, n, In(c, Setting(Made(cfg, c, v, now, env(i).size))), s);
  }

  lemma OversizeStep(
      cfg: Config, f: Function, s: State, t: Tid, c: Call, v: Value, now: int, env: nat -> Choice, i: nat, n: nat)
    requires n > 0 && !SizeFits(cfg, env(i).size)
    ensures Alone(cfg, f, s, t, In(c, Sizing(v, now)), env, i, n)
         == Alone(cfg, f, s, t, In(c, Skipping(v)), env, i + 1, n - 1)
  {
    AloneStep(cfg, f, s, t, In(c, Sizing(v, now)), env, i, n, In(c, Skipping(v)), s);
  }

  lemma SetStep(cfg: Config, f: Function, s: State, t: Tid, c: Call, e: Entry, env: nat -> Choice, i: nat, n: nat)
    requires n > 0 && env(i).ok
    ensures Alone(cfg, f, s, t, In(c, Setting(e)), env, i, n)
         == Alone(cfg, f, Written(s, c.key, e), t, In(c, Admitting(e.(stamp := s.past.stamp))), env, i + 1, n - 1)
  {
    AloneStep(cfg, f, s, t, In(c, Setting(e)), env, i, n, In(c, Admitting(e.(stamp := s.past.stamp))),
              Written(s, c.key, e));
  }

  lemma SetFailsStep(
      cfg: Config, f: Function, s: State, t: Tid, c: Call, e: Entry, env: nat -> Choice, i: nat, n: nat)
    requires n > 0 && !env(i).ok
    ensures Alone(cfg, f, s, t, In(c, Setting(e)), env, i, n)
         == Alone(cfg, f, s, t, In(c, Skipping(e.value)), env, i + 1, n - 1)
  {
    AloneStep(cfg, f, s, t, In(c, Setting(e)), env, i, n, In(c, Skipping(e.value)), s);
  }

  lemma AdmitStep(cfg: Config, f: Function, s: State, t: Tid, c: Call, e: Entry, env: nat -> Choice, i: nat, n: nat)
    requires n > 0
    ensures Alone(cfg, f, s, t, In(c, Admitting(e)), env, i, n)
         == Alone(cfg, f, Admitted(cfg, s, c.key, e.size), t,
                  In(c, Evicting(e, Displaced(cfg, s.budget, c.key, e.size))), env, i + 1, n - 1)
  {
    AloneStep(cfg, f, s, t, In(c, Admitting(e)), env, i, n,
              In(c, Evicting(e, Displaced(cfg, s.budget, c.key, e.size))), Admitted(cfg, s, c.key, e.size));
  }

  lemma SkipStep(cfg: Config, f: Function, s: State, t: Tid, c: Call, v: Value, env: nat -> Choice, i: nat, n: nat)
    requires n > 0
    ensures Alone(cfg, f, s, t, In(c, Skipping(v)), env, i, n)
         == Alone(cfg, f, Skipped(s, c), t, In(c, Leaving(Returned(v))), env, i + 1, n - 1)
  {
    AloneStep(cfg, f, s, t, In(c, Skipping(v)), env, i, n, In(c, Leaving(Returned(v))), Skipped(s, c));
  }

  lemma EvictStep(
      cfg: Config, f: Function, s: State, t: Tid, c: Call, e: Entry, victims: seq<Key>, env: nat -> Choice, i: nat,
      n: nat)
    requires n > 0 && victims != [] && env(i).ok
    ensures Alone(cfg, f, s, t, In(c, Evicting(e, victims)), env, i, n)
         == Alone(cfg, f, Removed(s, victims[0]), t, In(c, Evicting(e, victims[1..])), env, i + 1, n - 1)
  {
    AloneStep(cfg, f, s, t, In(c, Evicting(e, victims)), env, i, n, In(c, Evicting(e, victims[1..])),
              Removed(s, victims[0]));
  }

  lemma EvictedStep(cfg: Config, f: Function, s: State, t: Tid, c: Call, e: Entry, env: nat -> Choice, i: nat, n: nat)
    requires n > 0
    ensures Alone(cfg, f, s, t, In(c, Evicting(e, [])), env, i, n)
         == Alone(cfg, f, s, t, In(c, Unledgering(e)), env, i + 1, n - 1)
  {
    AloneStep(cfg, f, s, t, In(c, Evicting(e, [])), env, i, n, In(c, Unledgering(e)), s);
  }

  lemma UnledgerStep(
      cfg: Config, f: Function, s: State, t: Tid, c: Call, e: Entry, env: nat -> Choice, i: nat, n: nat)
    requires n > 0
    ensures Alone(cfg, f, s, t, In(c, Unledgering(e)), env, i, n)
         == Alone(cfg, f, s.(ledger := Without(s.ledger, c.key)), t, In(c, Snapshotting(e)), env, i + 1, n - 1)
  {
    AloneStep(cfg, f, s, t, In(c, Unledgering(e)), env, i, n, In(c, Snapshotting(e)),
              s.(ledger := Without(s.ledger, c.key)));
  }

  lemma SnapshotStep(
      cfg: Config, f: Function, s: State, t: Tid, c: Call, e: Entry, env: nat -> Choice, i: nat, n: nat)
    requires n > 0
    ensures Alone(cfg, f, s, t, In(c, Snapshotting(e)), env, i, n)
         == Alone(cfg, f, s, t, In(c, Draining(e, Batch(s.ledger, c.key))), env, i + 1, n - 1)
  {
    AloneStep(cfg, f, s, t, In(c, Snapshotting(e)), env, i, n, In(c, Draining(e, Batch(s.ledger, c.key))), s);
  }

  lemma DrainStep(
      cfg: Config, f: Function, s: State, t: Tid, c: Call, e: Entry, batch: seq<Key>, env: nat -> Choice, i: nat,
      n: nat)
    requires n > 0 && batch != [] && env(i).ok
    ensures Alone(cfg, f, s, t, In(c, Draining(e, batch)), env, i, n)
         == Alone(cfg, f, Removed(s, batch[0]), t, In(c, Drained(e, batch)), env, i + 1, n - 1)
  {
    AloneStep(cfg, f, s, t, In(c, Draining(e, batch)), env, i, n, In(c, Drained(e, batch)), Removed(s, batch[0]));
  }

  lemma DrainedStep(
      cfg: Config, f: Function, s: State, t: Tid, c: Call, e: Entry, batch: seq<Key>, env: nat -> Choice, i: nat,
      n: nat)
    requires n > 0 && batch != []
    ensures Alone(cfg, f, s, t, In(c, Drained(e, batch)), env, i, n)
         == Alone(cfg, f, s.(ledger := Without(s.ledger, batch[0])), t, In(c, Draining(e, batch[1..])), env, i + 1,
                  n - 1)
  {
    AloneStep(cfg, f, s, t, In(c, Drained(e, batch)), env, i, n, In(c, Draining(e, batch[1..])),
              s.(ledger := Without(s.ledger, batch[0])));
  }

  lemma DrainEndStep(
      cfg: Config, f: Function, s: State, t: Tid, c: Call, e: Entry, env: nat -> Choice, i: nat, n: nat)
    requires n > 0
    ensures Alone(cfg, f, s, t, In(c, Draining(e, [])), env, i, n)
         == Alone(cfg, f, s, t, In(c, Recording(e)), env, i + 1, n - 1)
  {
    AloneStep(cfg, f, s, t, In(c, Draining(e, [])), env, i, n, In(c, Recording(e)), s);
  }

  lemma RecordStep(cfg: Config, f: Function, s: State, t: Tid, c: Call, e: Entry, env: nat -> Choice, i: nat, n: nat)
    requires n > 0
    ensures Alone(cfg, f, s, t, In(c, Recording(e)), env, i, n)
         == Alone(cfg, f, s.(tally := s.tally.(writes := s.tally.writes + 1)), t, In(c, Discarding(e)), env, i + 1,
                  n - 1)
  {
    AloneStep(cfg, f, s, t, In(c, Recording(e)), env, i, n, In(c, Discarding(e)),
              s.(tally := s.tally.(writes := s.tally.writes + 1)));
  }

  lemma DiscardStep(cfg: Config, f: Function, s: State, t: Tid, c: Call, e: Entry, env: nat -> Choice, i: nat, n: nat)
    requires n > 0
    ensures Alone(cfg, f, s, t, In(c, Discarding(e)), env, i, n)
         == Alone(cfg, f, s.(quarantine := s.quarantine - {c.key}), t, In(c, Leaving(Returned(e.value))), env, i + 1,
                  n - 1)
  {
    AloneStep(cfg, f, s, t, In(c, Discarding(e)), env, i, n, In(c, Leaving(Returned(e.value))),
              s.(quarantine := s.quarantine - {c.key}));
  }

  // ------------------------------------------------------ when something fails

  /** An evicted key whose delete fails is remembered in the ledger, and the loop goes on. */
  lemma EvictionFails(cfg: Config, f: Function, s: State, t: Tid, c: Call, e: Entry, victims: seq<Key>,
      env: nat -> Choice, i: nat, n: nat)
    requires n >= 2 && victims != [] && !env(i).ok
    ensures Alone(cfg, f, s, t, In(c, Evicting(e, victims)), env, i, n)
         == Alone(cfg, f, s.(ledger := Remember(s.ledger, victims[0], LEDGER_CAP),
                             past := s.past.(deleteFailed := true)), t,
                  In(c, Evicting(e, victims[1..])), env, i + 2, n - 2)
  {
    var s1 := s.(past := s.past.(deleteFailed := true));
    AloneStep(cfg, f, s, t, In(c, Evicting(e, victims)), env, i, n, In(c, Ledgering(e, victims)), s1);
    AloneStep(cfg, f, s1, t, In(c, Ledgering(e, victims)), env, i + 1, n - 1, In(c, Evicting(e, victims[1..])),
              s1.(ledger := Remember(s.ledger, victims[0], LEDGER_CAP)));
  }

  /** A pending delete that fails again stays in the ledger. */
  lemma DrainFails(cfg: Config, f: Function, s: State, t: Tid, c: Call, e: Entry, batch: seq<Key>,
      env: nat -> Choice, i: nat, n: nat)
    requires n >= 1 && batch != [] && !env(i).ok
    ensures Alone(cfg, f, s, t, In(c, Draining(e, batch)), env, i, n)
         == Alone(cfg, f, s.(past := s.past.(deleteFailed := true)), t, In(c, Draining(e, batch[1..])), env, i + 1,
                  n - 1)
  {
    AloneStep(cfg, f, s, t, In(c, Draining(e, batch)), env, i, n, In(c, Draining(e, batch[1..])),
              s.(past := s.past.(deleteFailed := true)));
  }

  /** A stale entry that cannot be deleted is recomputed all the same. */
  lemma StaleDeleteFails(
      cfg: Config, f: Function, s: State, t: Tid, c: Call, e: Entry, env: nat -> Choice, i: nat, n: nat)
    requires n >= 1 && !env(i).ok
    ensures Alone(cfg, f, s, t, In(c, DropStale(e)), env, i, n)
         == Alone(cfg, f, s.(past := s.past.(deleteFailed := true)), t, In(c, Forgetting(AfterStale(e))), env,
                  i + 1, n - 1)
  {
    AloneStep(cfg, f, s, t, In(c, DropStale(e)), env, i, n, In(c, Forgetting(AfterStale(e))),
              s.(past := s.past.(deleteFailed := true)));
  }

  /** So is one that failed its verification. */
  lemma MismatchDeleteFails(
      cfg: Config, f: Function, s: State, t: Tid, c: Call, v: Value, env: nat -> Choice, i: nat, n: nat)
    requires n >= 1 && !env(i).raises && !env(i).ok
    ensures Alone(cfg, f, s, t, In(c, Unverified(v)), env, i, n)
         == Alone(cfg, f, s.(past := s.past.(deleteFailed := true)), t, In(c, Forgetting(AfterMismatch(v))), env,
                  i + 1, n - 1)
  {
    AloneStep(cfg, f, s, t, In(c, Unverified(v)), env, i, n, In(c, Forgetting(AfterMismatch(v))),
              s.(past := s.past.(deleteFailed := true)));
  }

  /** A function that raises ends the call: nothing is stored, and the lock is given
    back. */
  lemma FunctionRaises(cfg: Config, f: Function, s: State, t: Tid, c: Call, env: nat -> Choice, i: nat, n: nat)
    requires n == 2 && !env(i).ok && c.stage != Fast
    ensures var r := Alone(cfg, f, s, t, In(c, Running(None)), env, i, n);
      r.1 == Idle && r.0 == s.(holder := s.holder - {c.key}, past := r.0.past)
  {
    var s1 := s.(past := Broken(s.past, c.key).(raised := s.past.raised + 1));
    AloneStep(cfg, f, s, t, In(c, Running(None)), env, i, n, In(c, Leaving(Raised)), s1);
    LeaveStep(cfg, f, s1, t, c, Raised, env, i + 1, n - 1);
  }

  /** With `coalesce="processes"` a call that finds nothing under its lock probes the
    store, as often as it is told to, before it classifies the miss. */
  lemma ProbesBeforeClassifying(cfg: Config, f: Function, s: State, t: Tid, c: Call, env: nat -> Choice, i: nat, n: nat)
    requires n >= 2 && Calm(env, i, 2) && c.key !in s.quarantine && c.key !in s.store
    requires (c.stage == Stage.Locked && cfg.processes) || c.stage == Probe
    ensures var d := c.(floor := Barrier(s.past, c.key), stage := Probe);
      Alone(cfg, f, s, t, In(c, FirstLook), env, i, n)
      == Alone(cfg, f, s, t,
               if c.stage == Stage.Locked || env(i + 1).again then In(d, FirstLook) else In(d, Classify), env,
               i + 2, n - 2)
  {
    LooksFindNothing(cfg, f, s, t, c, env, i, n);
  }

  // -------------------------------------------------------------- classifying a miss

  /** A key that is not stored is one not found, or invalidated if it has that marker. */
  lemma AbsentClassifies(cfg: Config, f: Function, s: State, t: Tid, c: Call, env: nat -> Choice, i: nat, n: nat)
    requires n >= 4 && Calm(env, i, 4) && c.key !in s.quarantine && c.key !in s.store
    ensures Alone(cfg, f, s, t, In(c, Classify), env, i, n)
         == Alone(cfg, f, s.(tally := s.tally.(
                    invalidated := s.tally.invalidated + (if env(i + 2).ok then 1 else 0),
                    notFound := s.tally.notFound + (if env(i + 2).ok then 0 else 1))), t,
                  In(c, Calling(None)), env, i + 4, n - 4)
  {
    ClassifyStep(cfg, f, s, t, c, env, i, n);
    RegetStep(cfg, f, s, t, c, env, i + 1, n - 1);
    PopStep(cfg, f, s, t, c, env, i + 2, n - 2);
    CountMissStep(cfg, f, s, t, c, if env(i + 2).ok then Invalidated else NotFound, env, i + 3, n - 3);
  }

  /** What removing a stored entry from the store and the budget leaves. */
  function Dropped(cfg: Config, s: State, key: Key): State {
    s.(store := s.store - {key}, budget := Forgotten(cfg, s.budget, key), past := Broken(s.past, key))
  }

  /** A stored entry is deleted and forgotten, and the miss is put down to its expiry or
    to its dependencies. */
  lemma StaleClassifies(cfg: Config, f: Function, s: State, t: Tid, c: Call, env: nat -> Choice, i: nat, n: nat)
    requires n >= 6 && Calm(env, i, 6) && c.key !in s.quarantine && c.key in s.store && env(i + 2).ok
    ensures var e, now := s.store[c.key], Later(s.last, env(i + 4).reading);
      var late := e.expires.Some? && e.expires.value <= now;
      Alone(cfg, f, s, t, In(c, Classify), env, i, n)
      == Alone(cfg, f, s.(store := s.store - {c.key}, past := Broken(s.past, c.key), last := now,
                          budget := if cfg.maxBytes.Some? then Forget(s.budget, c.key) else s.budget,
                          tally := s.tally.(expired := s.tally.expired + (if late then 1 else 0),
                                            dependencyChanged := s.tally.dependencyChanged + (if late then 0 else 1))), t,
               In(c, Calling(None)), env, i + 6, n - 6)
  {
    var e, now := s.store[c.key], Later(s.last, env(i + 4).reading);
    ClassifyStep(cfg, f, s, t, c, env, i, n);
    RegetStep(cfg, f, s, t, c, env, i + 1, n - 1);
    DropStep(cfg, f, s, t, c, e, env, i + 2, n - 2);
    ForgetStep(cfg, f, Deleted(s, c.key), t, c, AfterStale(e), env, i + 3, n - 3);
    AttributeStep(cfg, f, Dropped(cfg, s, c.key), t, c, e, env, i + 4, n - 4);
    CountMissStep(cfg, f, Dropped(cfg, s, c.key).(last := now), t, c, Blamed(e, now), env, i + 5, n - 5);
  }

  /** A quarantined key is one invalidated; when its delete succeeds, the quarantine is
    lifted with it. */
  lemma QuarantinedClassifies(cfg: Config, f: Function, s: State, t: Tid, c: Call, env: nat -> Choice, i: nat, n: nat)
    requires n >= 5 && c.key in s.quarantine && c.key in s.store && env(i + 1).ok
    ensures Alone(cfg, f, s, t, In(c, Classify), env, i, n)
         == Alone(cfg, f, s.(store := s.store - {c.key}, past := Broken(s.past, c.key),
                             budget := if cfg.maxBytes.Some? then Forget(s.budget, c.key) else s.budget,
                             quarantine := s.quarantine - {c.key},
                             tally := s.tally.(invalidated := s.tally.invalidated + 1)), t,
                  In(c, Calling(None)), env, i + 5, n - 5)
  {
    var s1 := Deleted(s, c.key);
    var s2 := s1.(quarantine := s.quarantine - {c.key});
    var s3 := s2.(budget := if cfg.maxBytes.Some? then Forget(s.budget, c.key) else s.budget,
                  tally := s.tally.(invalidated := s.tally.invalidated + 1));
    ClassifyStep(cfg, f, s, t, c, env, i, n);
    PurgeStep(cfg, f, s, t, c, env, i + 1, n - 1);
    UnquarantineStep(cfg, f, s1, t, c, env, i + 2, n - 2);
    PurgedMisses(cfg, f, s2, t, c, env, i + 3, n - 3, s3);
  }

  lemma PurgedMisses(
      cfg: Config, f: Function, s: State, t: Tid, c: Call, env: nat -> Choice, i: nat, n: nat, s': State)
    requires n >= 2
    requires s' == s.(budget := if cfg.maxBytes.Some? then Forget(s.budget, c.key) else s.budget,
                      tally := s.tally.(invalidated := s.tally.invalidated + 1))
    ensures Alone(cfg, f, s, t, In(c, Forgetting(AfterPurge)), env, i, n)
         == Alone(cfg, f, s', t, In(c, Calling(None)), env, i + 2, n - 2)
  {
    ForgetStep(cfg, f, s, t, c, AfterPurge, env, i, n);
    CountMissStep(cfg, f, s.(budget := Forgotten(cfg, s.budget, c.key)), t, c, Invalidated, env, i + 1, n - 1);
    CountedInvalidated(s.tally);
  }

  /** When it fails, the key stays quarantined and is recomputed all the same. */
  lemma CondemnedClassifies(cfg: Config, f: Function, s: State, t: Tid, c: Call, env: nat -> Choice, i: nat, n: nat)
    requires n >= 4 && c.key in s.quarantine && !env(i + 1).ok
    ensures Alone(cfg, f, s, t, In(c, Classify), env, i, n)
         == Alone(cfg, f, s.(budget := if cfg.maxBytes.Some? then Forget(s.budget, c.key) else s.budget,
                             tally := s.tally.(invalidated := s.tally.invalidated + 1),
                             past := s.past.(deleteFailed := true)), t,
                  In(c, Calling(None)), env, i + 4, n - 4)
  {
    var s1 := s.(past := s.past.(deleteFailed := true));
    var s2 := s1.(budget := if cfg.maxBytes.Some? then Forget(s.budget, c.key) else s.budget,
                  tally := s.tally.(invalidated := s.tally.invalidated + 1));
    ClassifyStep(cfg, f, s, t, c, env, i, n);
    PurgeFailsStep(cfg, f, s, t, c, env, i + 1, n - 1);
    PurgedMisses(cfg, f, s1, t, c, env, i + 2, n - 2, s2);
  }

  // ------------------------------------------------------- computing and committing

  /** The function is run once and the execution counted. */
  lemma MissComputes(cfg: Config, f: Function, s: State, t: Tid, c: Call, env: nat -> Choice, i: nat, n: nat)
    requires n >= 3 && env(i + 1).ok && !c.torn
    ensures Alone(cfg, f, s, t, In(c, Calling(None)), env, i, n)
         == Alone(cfg, f, s.(tally := s.tally.(computes := s.tally.computes + 1),
                             past := s.past.(armed := s.past.armed + {c.key})), t,
                  In(c, Recheck(f(c.key, c.start))), env, i + 3, n - 3)
  {
    var s1 := s.(past := s.past.(armed := s.past.armed + {c.key}));
    CallStep(cfg, f, s, t, c, env, i, n);
    RunStep(cfg, f, s1, t, c, None, env, i + 1, n - 1);
    RanStep(cfg, f, s1, t, c, f(c.key, c.start), env, i + 2, n - 2);
  }

  /** A result whose dependencies are as they were is stamped by the clock, sized,
    written, and admitted. */
  lemma ResultIsWritten(
      cfg: Config, f: Function, s: State, t: Tid, c: Call, v: Value, env: nat -> Choice, i: nat, n: nat)
    requires n >= 5 && Calm(env, i, 2) && (cfg.tracked ==> s.dep == c.start)
    requires var size := env(i + 2).size; cfg.maxBytes.Some? ==> size.Some? && 0 <= size.value <= cfg.maxBytes.value
    requires env(i + 3).ok
    ensures var now := Later(s.last, env(i + 1).reading); var e := Made(cfg, c, v, now, env(i + 2).size);
      Alone(cfg, f, s, t, In(c, Recheck(v)), env, i, n)
      == Alone(cfg, f, Admitted(cfg, Written(s.(last := now), c.key, e), c.key, e.size), t,
               In(c, Evicting(e.(stamp := s.past.stamp), Displaced(cfg, s.budget, c.key, e.size))), env, i + 5, n - 5)
  {
    var now := Later(s.last, env(i + 1).reading);
    var e := Made(cfg, c, v, now, env(i + 2).size);
    var s1 := s.(last := now);
    RecheckStep(cfg, f, s, t, c, v, env, i, n);
    StampStep(cfg, f, s, t, c, v, env, i + 1, n - 1);
    SizeStep(cfg, f, s1, t, c, v, now, env, i + 2, n - 2);
    SetStep(cfg, f, s1, t, c, e, env, i + 3, n - 3);
    AdmitStep(cfg, f, Written(s1, c.key, e), t, c, e.(stamp := s.past.stamp), env, i + 4, n - 4);
  }

  /** A result whose dependencies changed while it was computed is returned, not stored. */
  lemma RacedIsSkipped(
      cfg: Config, f: Function, s: State, t: Tid, c: Call, v: Value, env: nat -> Choice, i: nat, n: nat)
    requires n >= 2 && Calm(env, i, 1) && cfg.tracked && s.dep != c.start
    ensures Alone(cfg, f, s, t, In(c, Recheck(v)), env, i, n)
         == Alone(cfg, f, s.(tally := s.tally.(skipped := s.tally.skipped + 1), past := Broken(s.past, c.key)), t,
                  In(c, Leaving(Returned(v))), env, i + 2, n - 2)
  {
    RaceStep(cfg, f, s, t, c, v, env, i, n);
    SkipStep(cfg, f, s, t, c, v, env, i + 1, n - 1);
  }

  /** So is one too large, or of no known size. */
  lemma OversizedIsSkipped(
      cfg: Config, f: Function, s: State, t: Tid, c: Call, v: Value, env: nat -> Choice, i: nat, n: nat)
    requires n >= 4 && Calm(env, i, 2) && (cfg.tracked ==> s.dep == c.start)
    requires var size := env(i + 2).size;
      cfg.maxBytes.Some? && (size.None? || size.value < 0 || size.value > cfg.maxBytes.value)
    ensures Alone(cfg, f, s, t, In(c, Recheck(v)), env, i, n)
         == Alone(cfg, f, Skipped(s.(last := Later(s.last, env(i + 1).reading)), c), t, In(c, Leaving(Returned(v))),
                  env,
                  i + 4, n - 4)
  {
    var now := Later(s.last, env(i + 1).reading);
    RecheckStep(cfg, f, s, t, c, v, env, i, n);
    StampStep(cfg, f, s, t, c, v, env, i + 1, n - 1);
    OversizeStep(cfg, f, s.(last := now), t, c, v, now, env, i + 2, n - 2);
    SkipStep(cfg, f, s.(last := now), t, c, v, env, i + 3, n - 3);
  }

  /** And one whose write fails. */
  lemma UnwrittenIsSkipped(
      cfg: Config, f: Function, s: State, t: Tid, c: Call, v: Value, env: nat -> Choice, i: nat, n: nat)
    requires n >= 5 && Calm(env, i, 2) && (cfg.tracked ==> s.dep == c.start)
    requires SizeFits(cfg, env(i + 2).size) && !env(i + 3).ok
    ensures Alone(cfg, f, s, t, In(c, Recheck(v)), env, i, n)
         == Alone(cfg, f, Skipped(s.(last := Later(s.last, env(i + 1).reading)), c), t, In(c, Leaving(Returned(v))),
                  env,
                  i + 5, n - 5)
  {
    var now := Later(s.last, env(i + 1).reading);
    var s1 := s.(last := now);
    var e := Made(cfg, c, v, now, env(i + 2).size);
    RecheckStep(cfg, f, s, t, c, v, env, i, n);
    StampStep(cfg, f, s, t, c, v, env, i + 1, n - 1);
    SizeStep(cfg, f, s1, t, c, v, now, env, i + 2, n - 2);
    SetFailsStep(cfg, f, s1, t, c, e, env, i + 3, n - 3);
    SkipStep(cfg, f, s1, t, c, v, env, i + 4, n - 4);
  }

  // ------------------------------------------------------- deleting and recording

  /** The state with these keys removed one by one. */
  function Emptied(s: State, keys: seq<Key>): State
    decreases |keys|
  {
    if keys == [] then s else Emptied(Removed(s, keys[0]), keys[1..])
  }

  lemma {:induction false} EmptiedStore(s: State, keys: seq<Key>)
    ensures Emptied(s, keys).store == s.store - set k | k in keys
    ensures var r := Emptied(s, keys); r == s.(store := r.store, past := r.past)
    decreases |keys|
  {
    if keys != [] {
      EmptiedStore(Removed(s, keys[0]), keys[1..]);
      assert keys == [keys[0]] + keys[1..];
      assert (set k | k in keys) == {keys[0]} + set k | k in keys[1..];
    }
  }

  predicate AllOk(env: nat -> Choice, i: nat, n: nat) {
    forall j :: i <= j < i + n ==> env(j).ok
  }

  /** The loop over the evicted keys ends after `m` steps, one for each and one more. */
  lemma {:induction false} EvictsAll(cfg: Config, f: Function, s: State, t: Tid, c: Call, e: Entry, victims: seq<Key>,
      env: nat -> Choice, i: nat, n: nat, m: nat, s': State)
    requires m == |victims| + 1 <= n && AllOk(env, i, |victims|) && s' == Emptied(s, victims)
    ensures Alone(cfg, f, s, t, In(c, Evicting(e, victims)), env, i, n)
         == Alone(cfg, f, s', t, In(c, Unledgering(e)), env, i + m, n - m)
    decreases m
  {
    if victims == [] {
      EvictedStep(cfg, f, s, t, c, e, env, i, n);
    } else {
      EmptiedFirst(s, victims);
      EvictStep(cfg, f, s, t, c, e, victims, env, i, n);
      EvictsAll(cfg, f, Removed(s, victims[0]), t, c, e, victims[1..], env, i + 1, n - 1, m - 1, s');
      assert (i + 1) + (m - 1) == i + m && (n - 1) - (m - 1) == n - m;
    }
  }

  lemma EmptiedFirst(s: State, keys: seq<Key>)
    requires keys != []
    ensures Emptied(s, keys) == Emptied(Removed(s, keys[0]), keys[1..])
  {
  }

  /** The ledger without these keys. */
  function Settled(ledger: seq<Key>, batch: seq<Key>): seq<Key>
    decreases |batch|
  {
    if batch == [] then ledger else Settled(Without(ledger, batch[0]), batch[1..])
  }

  lemma {:induction false} SettledFacts(ledger: seq<Key>, batch: seq<Key>)
    ensures forall k :: k in Settled(ledger, batch) <==> k in ledger && k !in batch
    decreases |batch|
  {
    if batch != [] {
      WithoutFacts(ledger, batch[0]);
      SettledFacts(Without(ledger, batch[0]), batch[1..]);
      assert batch == [batch[0]] + batch[1..];
    }
  }

  lemma {:induction false} EmptiedKeepsLedger(s: State, keys: seq<Key>, ledger: seq<Key>)
    ensures Emptied(s.(ledger := ledger), keys) == Emptied(s, keys).(ledger := ledger)
    decreases |keys|
  {
    if keys != [] {
      EmptiedKeepsLedger(Removed(s, keys[0]), keys[1..], ledger);
    }
  }

  lemma DrainsOne(cfg: Config, f: Function, s: State, t: Tid, c: Call, e: Entry, batch: seq<Key>,
      env: nat -> Choice, i: nat, n: nat)
    requires n >= 2 && batch != [] && env(i).ok
    ensures Alone(cfg, f, s, t, In(c, Draining(e, batch)), env, i, n)
         == Alone(cfg, f, Removed(s, batch[0]).(ledger := Without(s.ledger, batch[0])), t,
                  In(c, Draining(e, batch[1..])), env, i + 2, n - 2)
  {
    DrainStep(cfg, f, s, t, c, e, batch, env, i, n);
    DrainedStep(cfg, f, Removed(s, batch[0]), t, c, e, batch, env, i + 1, n - 1);
  }

  /** The loop over the pending keys ends after `m` steps, two for each and one more. */
  lemma {:induction false} DrainsAll(cfg: Config, f: Function, s: State, t: Tid, c: Call, e: Entry, batch: seq<Key>,
      env: nat -> Choice, i: nat, n: nat, m: nat, s': State)
    requires m == 2 * |batch| + 1 <= n && AllOk(env, i, 2 * |batch|) && s' == DrainedOf(s, batch)
    ensures Alone(cfg, f, s, t, In(c, Draining(e, batch)), env, i, n)
         == Alone(cfg, f, s', t, In(c, Recording(e)), env, i + m, n - m)
    decreases m
  {
    if batch == [] {
      DrainEndStep(cfg, f, s, t, c, e, env, i, n);
      assert DrainedOf(s, batch) == s;
    } else {
      var next := Removed(s, batch[0]).(ledger := Without(s.ledger, batch[0]));
      DrainedFirst(s, batch);
      DrainsOne(cfg, f, s, t, c, e, batch, env, i, n);
      DrainsAll(cfg, f, next, t, c, e, batch[1..], env, i + 2, n - 2, m - 2, s');
      assert (i + 2) + (m - 2) == i + m && (n - 2) - (m - 2) == n - m;
    }
  }

  /** The state with these keys removed, from the ledger too. */
  function DrainedOf(s: State, batch: seq<Key>): State {
    Emptied(s, batch).(ledger := Settled(s.ledger, batch))
  }

  lemma DrainedFirst(s: State, batch: seq<Key>)
    requires batch != []
    ensures DrainedOf(s, batch)
         == DrainedOf(Removed(s, batch[0]).(ledger := Without(s.ledger, batch[0])), batch[1..])
  {
    EmptiedKeepsLedger(Removed(s, batch[0]), batch[1..], Without(s.ledger, batch[0]));
  }

  /** How many steps follow an admission. */
  function FinishLength(s: State, key: Key, victims: seq<Key>): nat {
    |victims| + 2 * |Batch(Without(s.ledger, key), key)| + 6
  }

  /** What follows an admission when every delete succeeds: the evicted keys and a batch
    of the pending ones leave the store, the batch and the key leave the ledger, the
    write is counted and the quarantine lifted. */
  function Finished(s: State, key: Key, victims: seq<Key>): State {
    var ledger := Without(s.ledger, key);
    var r := DrainedOf(Emptied(s, victims).(ledger := ledger), Batch(ledger, key));
    r.(tally := r.tally.(writes := r.tally.writes + 1), quarantine := r.quarantine - {key})
  }

  lemma FinishedFacts(s: State, key: Key, victims: seq<Key>)
    ensures var ledger := Without(s.ledger, key); var batch := Batch(ledger, key); var r := Finished(s, key, victims);
      && r.store == s.store - (set k | k in victims) - (set k | k in batch)
      && r == s.(store := r.store, ledger := Settled(ledger, batch), quarantine := s.quarantine - {key},
                 tally := s.tally.(writes := s.tally.writes + 1), past := r.past)
  {
    var ledger := Without(s.ledger, key);
    EmptiedStore(s, victims);
    EmptiedStore(Emptied(s, victims).(ledger := ledger), Batch(ledger, key));
  }

  lemma UnledgersNext(cfg: Config, f: Function, s: State, t: Tid, c: Call, e: Entry, env: nat -> Choice, i: nat, n: nat)
    requires n >= 2
    ensures var ledger := Without(s.ledger, c.key);
      Alone(cfg, f, s, t, In(c, Unledgering(e)), env, i, n)
      == Alone(cfg, f, s.(ledger := ledger), t, In(c, Draining(e, Batch(ledger, c.key))), env, i + 2, n - 2)
  {
    UnledgerStep(cfg, f, s, t, c, e, env, i, n);
    SnapshotStep(cfg, f, s.(ledger := Without(s.ledger, c.key)), t, c, e, env, i + 1, n - 1);
  }

  lemma CommitFinishes(cfg: Config, f: Function, s: State, t: Tid, c: Call, e: Entry, victims: seq<Key>,
      env: nat -> Choice, i: nat, n: nat, m: nat, s': State)
    requires m == FinishLength(s, c.key, victims) <= n && AllOk(env, i, m) && s' == Finished(s, c.key, victims)
    ensures Alone(cfg, f, s, t, In(c, Evicting(e, victims)), env, i, n)
         == Alone(cfg, f, s', t, In(c, Leaving(Returned(e.value))), env, i + m, n - m)
  {
    var ledger := Without(s.ledger, c.key);
    var batch := Batch(ledger, c.key);
    var a, j := Emptied(s, victims), |victims| + 1;
    EmptiedStore(s, victims);
    EvictsAll(cfg, f, s, t, c, e, victims, env, i, n, j, a);
    UnledgersNext(cfg, f, a, t, c, e, env, i + j, n - j);
    var b := DrainedOf(a.(ledger := ledger), batch);
    DrainsAll(cfg, f, a.(ledger := ledger), t, c, e, batch, env, i + j + 2, n - j - 2, 2 * |batch| + 1, b);
    RecordsAtLast(cfg, f, b, t, c, e, env, i + m - 2, n - m + 2);
  }

  lemma RecordsAtLast(cfg: Config, f: Function, s: State, t: Tid, c: Call, e: Entry, env: nat -> Choice, i: nat, n: nat)
    requires n >= 2
    ensures Alone(cfg, f, s, t, In(c, Recording(e)), env, i, n)
         == Alone(cfg, f, s.(tally := s.tally.(writes := s.tally.writes + 1), quarantine := s.quarantine - {c.key}), t,
                  In(c, Leaving(Returned(e.value))), env, i + 2, n - 2)
  {
    RecordStep(cfg, f, s, t, c, e, env, i, n);
    DiscardStep(cfg, f, s.(tally := s.tally.(writes := s.tally.writes + 1)), t, c, e, env, i + 1, n - 1);
  }

  // ------------------------------------------------------------------- whole calls

  /** The state and the entry of a commit that is written, up to its admission. */
  function Computed(s: State, c: Call): State {
    s.(tally := s.tally.(computes := s.tally.computes + 1), past := s.past.(armed := s.past.armed + {c.key}))
  }

  function Stored(cfg: Config, s: State, c: Call, now: int, e: Entry): State {
    Admitted(cfg, Written(s.(last := now), c.key, e), c.key, e.size)
  }

  /** What a miss that is computed and written leaves of the shared state. */
  function Committed(cfg: Config, s: State, c: Call, now: int, e: Entry): State {
    var r := Finished(Stored(cfg, Computed(s, c), c, now, e), c.key, Displaced(cfg, s.budget, c.key, e.size));
    r.(holder := r.holder - {c.key})
  }

  /** Field by field: the entry is stored, but for what its admission evicts and a batch
    of pending deletes; the budget has admitted it; the ledger has lost the batch and
    the key; the quarantine of the key is lifted and its lock given back; one execution
    and one write are counted. */
  lemma CommittedFacts(cfg: Config, s: State, c: Call, now: int, e: Entry)
    ensures var r := Committed(cfg, s, c, now, e);
      var victims := Displaced(cfg, s.budget, c.key, e.size);
      var ledger := Without(s.ledger, c.key); var batch := Batch(ledger, c.key);
      && r.store == s.store[c.key := e.(stamp := s.past.stamp)] - (set k | k in victims) - (set k | k in batch)
      && r.budget == (if cfg.maxBytes.Some? then Admit(s.budget, c.key, e.size, cfg.maxBytes.value) else s.budget)
      && r.ledger == Settled(ledger, batch) && (forall k :: k in r.ledger <==> k in ledger && k !in batch)
      && r.quarantine == s.quarantine - {c.key} && r.holder == s.holder - {c.key} && r.last == now && r.dep == s.dep
      && r.tally == s.tally.(computes := s.tally.computes + 1, writes := s.tally.writes + 1)
  {
    FinishedFacts(Stored(cfg, Computed(s, c), c, now, e), c.key, Displaced(cfg, s.budget, c.key, e.size));
    SettledFacts(Without(s.ledger, c.key), Batch(Without(s.ledger, c.key), c.key));
  }

  /** The choices under which a miss is written: the function returns, the estimate fits,
    the write and every delete succeed, and nothing raises. */
  predicate Favourable(cfg: Config, env: nat -> Choice, i: nat, m: nat) {
    Calm(env, i, 8 + m) && env(i + 1).ok && SizeFits(cfg, env(i + 5).size) && env(i + 6).ok && AllOk(env, i + 8, m)
  }

  lemma ComputesToEnd(cfg: Config, f: Function, s: State, t: Tid, c: Call, env: nat -> Choice, i: nat, n: nat, m: nat,
      now: int, e: Entry)
    requires c.stage != Fast && !c.torn && (cfg.tracked ==> s.dep == c.start) && Favourable(cfg, env, i, m)
    requires now == Later(s.last, env(i + 4).reading) && e == Made(cfg, c, f(c.key, c.start), now, env(i + 5).size)
    requires m == FinishLength(s, c.key, Displaced(cfg, s.budget, c.key, e.size)) && n == 9 + m
    ensures Alone(cfg, f, s, t, In(c, Calling(None)), env, i, n) == (Committed(cfg, s, c, now, e), Idle)
  {
    var v, victims := f(c.key, c.start), Displaced(cfg, s.budget, c.key, e.size);
    var stamped := e.(stamp := s.past.stamp);
    var r := Finished(Stored(cfg, Computed(s, c), c, now, e), c.key, victims);
    MissComputes(cfg, f, s, t, c, env, i, n);
    ResultIsWritten(cfg, f, Computed(s, c), t, c, v, env, i + 3, n - 3);
    CommitFinishes(cfg, f, Stored(cfg, Computed(s, c), c, now, e), t, c, stamped, victims, env, i + 8, n - 8, m, r);
    LeaveStep(cfg, f, r, t, c, Returned(v), env, i + 8 + m, n - 8 - m);
  }

  function Locked(s: State, t: Tid, key: Key): State {
    s.(holder := s.holder[key := t])
  }

  /** Where a call that was not served stands under its lock. */
  function Behind(c: Call, s: State): Call {
    c.(stage := Stage.Locked, floor := Barrier(s.past, c.key))
  }

  lemma LockStep(cfg: Config, f: Function, s: State, t: Tid, c: Call, env: nat -> Choice, i: nat, n: nat)
    requires n > 0 && c.key !in s.holder
    ensures Alone(cfg, f, s, t, Queued(c), env, i, n)
         == Alone(cfg, f, Locked(s, t, c.key), t, In(c, FirstLook), env, i + 1, n - 1)
  {
    AloneStep(cfg, f, s, t, Queued(c), env, i, n, In(c, FirstLook), Locked(s, t, c.key));
  }

  /** A call for an absent key looks, takes the lock, looks again and classifies. */
  lemma AbsentGetsReady(cfg: Config, f: Function, s: State, t: Tid, c: Call, env: nat -> Choice, n: nat)
    requires c.stage == Fast && !cfg.processes && c.key !in s.quarantine && c.key !in s.store && c.key !in s.holder
    requires n >= 9 && Calm(env, 0, 9)
    ensures Alone(cfg, f, s, t, In(c, FirstLook), env, 0, n)
         == Alone(cfg, f,
                  Locked(s, t, c.key).(tally := Counted(s.tally, if env(7).ok then Invalidated else NotFound)), t,
                  In(Behind(c, s), Calling(None)), env, 9, n - 9)
  {
    var d := Behind(c, s);
    LooksFindNothing(cfg, f, s, t, c, env, 0, n);
    LockStep(cfg, f, s, t, d, env, 2, n - 2);
    LooksFindNothing(cfg, f, Locked(s, t, c.key), t, d, env, 3, n - 3);
    AbsentClassifies(cfg, f, Locked(s, t, c.key), t, d, env, 5, n - 5);
  }

  /** What a written miss leaves when it started with the lock free. */
  function MissState(cfg: Config, s: State, t: Tid, c: Call, miss: Miss, now: int, e: Entry): State {
    Committed(cfg, Locked(s, t, c.key).(tally := Counted(s.tally, miss)), c, now, e)
  }

  lemma MissSteps(cfg: Config, f: Function, s: State, t: Tid, c: Call, env: nat -> Choice, m: nat, n: nat, now: int,
      e: Entry, miss: Miss)
    requires c.stage == Fast && !c.torn && !cfg.processes && (cfg.tracked ==> s.dep == c.start)
    requires c.key !in s.quarantine && c.key !in s.store && c.key !in s.holder
    requires Calm(env, 0, 9) && Favourable(cfg, env, 9, m) && miss == if env(7).ok then Invalidated else NotFound
    requires now == Later(s.last, env(13).reading) && e == Made(cfg, c, f(c.key, c.start), now, env(14).size)
    requires m == FinishLength(s, c.key, Displaced(cfg, s.budget, c.key, e.size)) && n == 18 + m
    ensures Alone(cfg, f, s, t, In(c, FirstLook), env, 0, n) == (MissState(cfg, s, t, c, miss, now, e), Idle)
  {
    var s1, d := Locked(s, t, c.key).(tally := Counted(s.tally, miss)), Behind(c, s);
    AbsentGetsReady(cfg, f, s, t, c, env, n);
    ComputesToEnd(cfg, f, s1, t, d, env, 9, n - 9, m, now, e);
    CommittedSame(cfg, s1, c, d, now, e);
  }

  /** A call for a key that is neither stored nor quarantined, alone and with nothing
    failing, ends with the lock given back. */
  lemma MissAlone(cfg: Config, f: Function, s: State, t: Tid, c: Call, env: nat -> Choice, m: nat, n: nat, now: int,
      e: Entry, miss: Miss)
    requires c.stage == Fast && !c.torn && !cfg.processes && (cfg.tracked ==> s.dep == c.start)
    requires c.key !in s.quarantine && c.key !in s.store && c.key !in s.holder
    requires Calm(env, 0, 9) && Favourable(cfg, env, 9, m) && miss == if env(7).ok then Invalidated else NotFound
    requires now == Later(s.last, env(13).reading) && e == Made(cfg, c, f(c.key, c.start), now, env(14).size)
    requires m == FinishLength(s, c.key, Displaced(cfg, s.budget, c.key, e.size)) && n == 18 + m
    ensures Turns(cfg, f, Place(s, t, In(c, FirstLook)), t, env, 0, n)
         == Place(MissState(cfg, s, t, c, miss, now, e), t, Idle)
  {
    MissSteps(cfg, f, s, t, c, env, m, n, now, e, miss);
    AloneIsTurns(cfg, f, s, t, In(c, FirstLook), env, 0, n);
  }

  /** Field by field: the function's value is stored under the key with the call's
    fingerprints, the clock's reading and the expiry the TTL gives, but for what its
    admission evicts and a batch of pending deletes; the budget has admitted it; the
    miss is counted under its reason, with one execution and one write; the quarantine
    and the locks are as they were. */
  lemma MissFacts(cfg: Config, f: Function, s: State, t: Tid, c: Call, miss: Miss, now: int, size: Option<int>)
    requires SizeFits(cfg, size) && c.key !in s.quarantine && c.key !in s.holder
    ensures var e := Made(cfg, c, f(c.key, c.start), now, size); var r := MissState(cfg, s, t, c, miss, now, e);
      var bytes := if cfg.maxBytes.Some? then size.value else 0;
      var entry := Entry(f(c.key, c.start), c.start, now, if cfg.ttl.Some? then Some(now + cfg.ttl.value) else None,
                         bytes, s.past.stamp);
      var victims :=
        if cfg.maxBytes.Some? then KeysOf(Evicted(s.budget, c.key, bytes, cfg.maxBytes.value)) else [];
      var ledger := Without(s.ledger, c.key); var batch := Batch(ledger, c.key);
      && r.store == s.store[c.key := entry] - (set k | k in victims) - (set k | k in batch)
      && r.budget == (if cfg.maxBytes.Some? then Admit(s.budget, c.key, bytes, cfg.maxBytes.value) else s.budget)
      && (forall k :: k in r.ledger <==> k in ledger && k !in batch)
      && r.quarantine == s.quarantine && r.holder == s.holder && r.last == now
      && r.tally == s.tally.(notFound := s.tally.notFound + (if miss.NotFound? then 1 else 0),
                             expired := s.tally.expired + (if miss.Expired? then 1 else 0),
                             invalidated := s.tally.invalidated + (if miss.Invalidated? then 1 else 0),
                             dependencyChanged := s.tally.dependencyChanged + (if miss.DependencyChanged? then 1 else 0),
                             computes := s.tally.computes + 1, writes := s.tally.writes + 1)
  {
    var e := Made(cfg, c, f(c.key, c.start), now, size);
    CommittedFacts(cfg, Locked(s, t, c.key).(tally := Counted(s.tally, miss)), c, now, e);
    assert s.holder[c.key := t] - {c.key} == s.holder;
    assert s.quarantine - {c.key} == s.quarantine;
  }

  lemma CommittedSame(cfg: Config, s: State, c: Call, d: Call, now: int, e: Entry)
    requires c.key == d.key
    ensures Committed(cfg, s, c, now, e) == Committed(cfg, s, d, now, e)
  {
  }

  // ---------------------------------------------------------------- an invalidation

  /** What an invalidation does to the store and the quarantine: it deletes the key's
    entry, or quarantines the key when the delete fails. */
  function Condemned(s: State, key: Key, ok: bool): State {
    if ok then Removed(s, key).(past := Invalid(Removed(s, key).past, key))
    else
      s.(quarantine := s.quarantine + {key},
         past := Invalid(Broken(s.past.(deleteFailed := true), key), key))
  }

  lemma InvalidationStrikes(cfg: Config, f: Function, s: State, t: Tid, key: Key, env: nat -> Choice, i: nat, n: nat)
    requires n >= 2
    ensures var k := if env(i).ok then 1 else 2;
      Alone(cfg, f, s, t, Inv(key, InvDelete), env, i, n)
      == Alone(cfg, f, Condemned(s, key, env(i).ok), t, Inv(key, InvForget), env, i + k, n - k)
  {
    if env(i).ok {
      AloneStep(cfg, f, s, t, Inv(key, InvDelete), env, i, n, Inv(key, InvForget), Condemned(s, key, true));
    } else {
      var s1 := s.(past := s.past.(deleteFailed := true));
      AloneStep(cfg, f, s, t, Inv(key, InvDelete), env, i, n, Inv(key, InvQuarantine), s1);
      AloneStep(cfg, f, s1, t, Inv(key, InvQuarantine), env, i + 1, n - 1, Inv(key, InvForget),
                Condemned(s, key, false));
    }
  }

  lemma InvalidationSteps(cfg: Config, f: Function, s: State, t: Tid, key: Key, env: nat -> Choice, n: nat)
    requires key !in s.holder && n == 6
    ensures var s1 := Condemned(Locked(s, t, key), key, env(1).ok);
      Alone(cfg, f, s, t, InvQueued(key), env, 0, n) == (InvalidatedState(cfg, s1, key), Idle)
  {
    AloneStep(cfg, f, s, t, InvQueued(key), env, 0, n, Inv(key, InvDelete), Locked(s, t, key));
    InvalidationRuns(cfg, f, Locked(s, t, key), t, key, env, 1, n - 1);
  }

  lemma InvalidationRuns(cfg: Config, f: Function, s: State, t: Tid, key: Key, env: nat -> Choice, i: nat, n: nat)
    requires n >= 5
    ensures Alone(cfg, f, s, t, Inv(key, InvDelete), env, i, n)
         == (InvalidatedState(cfg, Condemned(s, key, env(i).ok), key), Idle)
  {
    var k := if env(i).ok then 1 else 2;
    InvalidationStrikes(cfg, f, s, t, key, env, i, n);
    InvalidationEnds(cfg, f, Condemned(s, key, env(i).ok), t, key, env, i + k, n - k);
  }

  function InvalidatedState(cfg: Config, s: State, key: Key): State {
    s.(budget := Forgotten(cfg, s.budget, key), tally := s.tally.(invalidations := s.tally.invalidations + 1),
       holder := s.holder - {key})
  }

  /** An invalidation alone deletes the key's entry, or quarantines the key when the
    delete fails; the key leaves the budget, one invalidation is counted, the lock is
    given back, and nothing else changes. */
  lemma InvalidationAlone(cfg: Config, f: Function, s: State, t: Tid, key: Key, env: nat -> Choice, n: nat)
    requires key !in s.holder && n == 6
    ensures var r := Turns(cfg, f, Place(s, t, InvQueued(key)), t, env, 0, n);
      && r.threads == s.threads[t := Idle]
      && r.store == (if env(1).ok then s.store - {key} else s.store)
      && r.quarantine == (if env(1).ok then s.quarantine else s.quarantine + {key})
      && r.budget == (if cfg.maxBytes.Some? then Forget(s.budget, key) else s.budget)
      && r.holder == s.holder && r.ledger == s.ledger && r.last == s.last && r.dep == s.dep
      && r.tally == s.tally.(invalidations := s.tally.invalidations + 1)
  {
    InvalidationSteps(cfg, f, s, t, key, env, n);
    AloneIsTurns(cfg, f, s, t, InvQueued(key), env, 0, n);
    CondemnedFacts(cfg, s, t, key, env(1).ok);
  }

  lemma CondemnedFacts(cfg: Config, s: State, t: Tid, key: Key, ok: bool)
    requires key !in s.holder
    ensures var r := InvalidatedState(cfg, Condemned(Locked(s, t, key), key, ok), key);
      && r.threads == s.threads
      && r.store == (if ok then s.store - {key} else s.store)
      && r.quarantine == (if ok then s.quarantine else s.quarantine + {key})
      && r.budget == (if cfg.maxBytes.Some? then Forget(s.budget, key) else s.budget)
      && r.holder == s.holder && r.ledger == s.ledger && r.last == s.last && r.dep == s.dep
      && r.tally == s.tally.(invalidations := s.tally.invalidations + 1)
  {
    assert s.holder[key := t] - {key} == s.holder;
    assert key !in s.store ==> s.store - {key} == s.store;
  }

  lemma InvalidationEnds(cfg: Config, f: Function, s: State, t: Tid, key: Key, env: nat -> Choice, i: nat, n: nat)
    requires n >= 3
    ensures Alone(cfg, f, s, t, Inv(key, InvForget), env, i, n)
         == (InvalidatedState(cfg, s, key), Idle)
  {
    var s1 := s.(budget := Forgotten(cfg, s.budget, key));
    var s2 := s1.(tally := s.tally.(invalidations := s.tally.invalidations + 1));
    var s3 := s2.(holder := s.holder - {key});
    AloneStep(cfg, f, s, t, Inv(key, InvForget), env, i, n, Inv(key, InvCount), s1);
    AloneStep(cfg, f, s1, t, Inv(key, InvCount), env, i + 1, n - 1, Inv(key, InvLeaving), s2);
    AloneStep(cfg, f, s2, t, Inv(key, InvLeaving), env, i + 2, n - 2, Idle, s3);
    StuckAlone(cfg, f, s3, t, Idle, env, i + 3, n - 3);
  }

  // ----------------------------------------------------------------- a verification

  /** A `verify=` call that holds a servable entry runs the function, counts the
    execution, and compares. */
  lemma VerificationRuns(cfg: Config, f: Function, s: State, t: Tid, c: Call, env: nat -> Choice, n: nat)
    requires c.stage == Verify && !c.torn && c.key !in s.holder && Calm(env, 0, 8) && env(6).ok && n >= 8
    requires Servable(cfg, s, c, Later(s.last, env(3).reading))
    ensures var now := Later(s.last, env(3).reading); var e := s.store[c.key];
      Alone(cfg, f, s, t, Queued(c), env, 0, n)
      == Alone(cfg, f, Locked(s, t, c.key).(last := now, tally := s.tally.(computes := s.tally.computes + 1)), t,
               In(c.(floor := Barrier(s.past, c.key), at := now), Comparing(e, f(c.key, c.start))), env, 8, n - 8)
  {
    var s1, e, now := Locked(s, t, c.key), s.store[c.key], Later(s.last, env(3).reading);
    var d := c.(floor := Barrier(s.past, c.key), at := now);
    LockStep(cfg, f, s, t, c, env, 0, n);
    LooksServe(cfg, f, s1, t, c, env, 1, n - 1);
    RecomputeSteps(cfg, f, s1.(last := now), t, d, e, env, 5, n - 5);
  }

  lemma RecomputeSteps(
      cfg: Config, f: Function, s: State, t: Tid, c: Call, e: Entry, env: nat -> Choice, i: nat, n: nat)
    requires n >= 3 && env(i + 1).ok && !c.torn
    ensures Alone(cfg, f, s, t, In(c, Calling(Some(e))), env, i, n)
         == Alone(cfg, f, s.(tally := s.tally.(computes := s.tally.computes + 1)), t,
                  In(c, Comparing(e, f(c.key, c.start))), env, i + 3, n - 3)
  {
    AloneStep(cfg, f, s, t, In(c, Calling(Some(e))), env, i, n, In(c, Running(Some(e))), s);
    RunStep(cfg, f, s, t, c, Some(e), env, i + 1, n - 1);
    AloneStep(cfg, f, s, t, In(c, Ran(Some(e), f(c.key, c.start))), env, i + 2, n - 2,
              In(c, Comparing(e, f(c.key, c.start))), s.(tally := s.tally.(computes := s.tally.computes + 1)));
  }

  /** A match, or an impossible comparison, is a hit: the entry's value is returned. */
  lemma MatchIsAHit(cfg: Config, f: Function, s: State, t: Tid, c: Call, e: Entry, v: Value, env: nat -> Choice, i: nat,
      n: nat)
    requires c.stage == Verify && !env(i).raises && !env(i).verdict.Mismatching? && n >= 2
    ensures Alone(cfg, f, s, t, In(c, Comparing(e, v)), env, i, n)
         == Alone(cfg, f, s.(budget := if cfg.maxBytes.Some? then Touch(s.budget, c.key) else s.budget,
                             tally := s.tally.(hits := s.tally.hits + 1,
                                               verifications := s.tally.verifications
                                                 + if env(i).verdict.Matching? then 1 else 0),
                             past := s.past.(uncompared := s.past.uncompared
                                               + if env(i).verdict.Matching? then 0 else 1)), t,
                  In(c, Leaving(Served(e))), env, i + 2, n - 2)
  {
    var s1 := Enact(cfg, s, t, Bump(if env(i).verdict.Matching? then GoodVerdict else NoVerdict));
    AloneStep(cfg, f, s, t, In(c, Comparing(e, v)), env, i, n, In(c, Touching(e)), s1);
    TouchStep(cfg, f, s1, t, c, e, env, i + 1, n - 1);
  }

  lemma MismatchStep(
      cfg: Config, f: Function, s: State, t: Tid, c: Call, e: Entry, v: Value, env: nat -> Choice, i: nat, n: nat)
    requires n > 0 && !env(i).raises && env(i).verdict.Mismatching?
    ensures Alone(cfg, f, s, t, In(c, Comparing(e, v)), env, i, n)
         == Alone(cfg, f, s.(tally := s.tally.(verifications := s.tally.verifications + 1,
                                               verificationFailures := s.tally.verificationFailures + 1,
                                               missVerification := s.tally.missVerification + 1)), t,
                  In(c, Unverified(v)), env, i + 1, n - 1)
  {
    AloneStep(cfg, f, s, t, In(c, Comparing(e, v)), env, i, n, In(c, Unverified(v)),
              Enact(cfg, s, t, Bump(BadVerdict)));
  }

  lemma UnverifiedStep(
      cfg: Config, f: Function, s: State, t: Tid, c: Call, v: Value, env: nat -> Choice, i: nat, n: nat)
    requires n > 0 && !env(i).raises && env(i).ok && c.key in s.store
    ensures Alone(cfg, f, s, t, In(c, Unverified(v)), env, i, n)
         == Alone(cfg, f, Deleted(s, c.key), t, In(c, Forgetting(AfterMismatch(v))), env, i + 1, n - 1)
  {
    AloneStep(cfg, f, s, t, In(c, Unverified(v)), env, i, n, In(c, Forgetting(AfterMismatch(v))), Deleted(s, c.key));
  }

  /** A mismatch is a failed verification and a miss: the entry is deleted and forgotten,
    and the fresh value goes on to be committed. */
  lemma MismatchIsReplaced(cfg: Config, f: Function, s: State, t: Tid, c: Call, e: Entry, v: Value, env: nat -> Choice,
      i: nat, n: nat)
    requires Calm(env, i, 2) && env(i).verdict.Mismatching? && env(i + 1).ok && c.key in s.store && n >= 3
    ensures Alone(cfg, f, s, t, In(c, Comparing(e, v)), env, i, n)
         == Alone(cfg, f, s.(
                    store := s.store - {c.key}, past := Broken(s.past, c.key),
                    budget := if cfg.maxBytes.Some? then Forget(s.budget, c.key) else s.budget,
                    tally := s.tally.(verifications := s.tally.verifications + 1,
                                      verificationFailures := s.tally.verificationFailures + 1,
                                      missVerification := s.tally.missVerification + 1)), t,
                  In(c, Recheck(v)), env, i + 3, n - 3)
  {
    var s1 := s.(tally := s.tally.(verifications := s.tally.verifications + 1,
                                   verificationFailures := s.tally.verificationFailures + 1,
                                   missVerification := s.tally.missVerification + 1));
    MismatchStep(cfg, f, s, t, c, e, v, env, i, n);
    UnverifiedStep(cfg, f, s1, t, c, v, env, i + 1, n - 1);
    ForgetStep(cfg, f, Deleted(s1, c.key), t, c, AfterMismatch(v), env, i + 2, n - 2);
  }
}
