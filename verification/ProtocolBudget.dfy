/** The memory bound: over every run of the protocol machine in which deletes
  succeed, no stored entry ever escapes the budget.

  "Set, then admit, then delete the evicted" is correct because at each moment every
  stored key is tracked with its size, or its committer is between its own `set` and
  its `admit`, or some committer has evicted it and still owes its delete. */
module ProtocolBudget {
  import opened Ledgers
  import opened Policy
  import opened Protocol
  import opened Wrappers

  /** The hypotheses of the bound: no delete has failed, no other process commits. */
  predicate Calm(s: State) {
    !s.past.deleteFailed && !s.past.foreign
  }

  predicate Tracked(s: State, key: Key) {
    key in s.store && key in Sizes(s.budget) && Sizes(s.budget)[key] == s.store[key].size
  }

  /** The thread will track or delete the key before it is done. */
  predicate Owes(pc: Pc, key: Key) {
    pc.In? && ((pc.at.Admitting? && pc.c.key == key) || (pc.at.Evicting? && key in pc.at.victims))
  }

  /** What an earlier process left outside the bound, and nobody has rewritten since. */
  predicate Left(legacy: map<Key, Entry>, store: map<Key, Entry>, key: Key) {
    key in store && key in legacy && store[key] == legacy[key]
  }

  ghost predicate Covered(legacy: map<Key, Entry>, s: State, key: Key) {
    Left(legacy, s.store, key) || Tracked(s, key) || exists t :: t in s.threads && Owes(s.threads[t], key)
  }

  /** What a thread inside a critical section knows of its key's entry. */
  predicate Knows(maxBytes: nat, store: map<Key, Entry>, pc: Pc) {
    match pc
    case In(c, Setting(e)) => e.size <= maxBytes
    case In(c, Admitting(e)) => e.size <= maxBytes && (c.key in store ==> store[c.key] == e)
    case In(c, Unquarantine) => c.key !in store
    case In(c, Forgetting(_)) => c.key !in store
    case In(c, Ledgering(_, _)) => false
    case Inv(key, InvForget) => key !in store
    case Inv(key, InvQuarantine) => false
    case _ => true
  }

  predicate Fitting(maxBytes: nat, budget: seq<Slot>) {
    Distinct(budget) && Total(budget) <= maxBytes
  }

  ghost predicate Bounded(legacy: map<Key, Entry>, maxBytes: nat, s: State) {
    && Locks(s) && AllStaged(s)
    && Fitting(maxBytes, s.budget)
    && (forall key :: key in s.store ==> Covered(legacy, s, key))
    && (forall t :: t in s.threads ==> Knows(maxBytes, s.store, s.threads[t]))
  }

  // ------------------------------------------------------------ one thread's move

  /** The budget after a step still fits, and tracks what it tracked unless the step
    forgets or evicts it. */
  lemma EffectTracks(cfg: Config, s: State, t: Tid, effect: Effect, key: Key)
    requires cfg.maxBytes.Some? && Fitting(cfg.maxBytes.value, s.budget)
    requires effect.Enter? ==> effect.size <= cfg.maxBytes.value
    ensures var after := Enact(cfg, s, t, effect);
      && Fitting(cfg.maxBytes.value, after.budget)
      && (Tracked(s, key) && key in after.store && !effect.Enter? && !effect.Write? && effect != Drop(key)
          ==> Tracked(after, key))
  {
    match effect {
      case Use(k) => TouchFacts(s.budget, k);
      case Drop(k) => ForgetFacts(s.budget, k);
      case Enter(k, size) => AdmitFacts(s.budget, k, size, cfg.maxBytes.value);
      case _ =>
    }
  }

  lemma AdmitCovers(s: State, c: Call, e: Entry, maxBytes: nat, key: Key)
    requires Fitting(maxBytes, s.budget) && key in s.store
    requires Tracked(s, key) || (key == c.key && s.store[key] == e)
    requires c.key in s.store ==> s.store[c.key] == e
    ensures Tracked(s.(budget := Admit(s.budget, c.key, e.size, maxBytes)), key)
      || key in KeysOf(Evicted(s.budget, c.key, e.size, maxBytes))
  {
    AdmitFacts(s.budget, c.key, e.size, maxBytes);
    KeysOfSizes(Evicted(s.budget, c.key, e.size, maxBytes), key);
  }

  /** How a move may change the store: it removes, or writes the key it holds. */
  predicate StoreMoves(s: State, after: State, pc: Pc) {
    forall key :: key in after.store && HeldKey(pc) != Some(key) ==> key in s.store && after.store[key] == s.store[key]
  }

  predicate EarlyOk(cfg: Config, s: State, after: State, was: Pc, move: Move)
    requires cfg.maxBytes.Some?
  {
    && Knows(cfg.maxBytes.value, after.store, move.pc) && StoreMoves(s, after, was)
    && !move.effect.Enter? && !move.effect.Write?
    && (move.effect.Drop? ==> move.effect.key !in s.store)
    && after.store.Keys <= s.store.Keys
  }

  lemma FirstLookKnows(cfg: Config, s: State, t: Tid, c: Call, p: Point, ch: Choice)
    requires cfg.maxBytes.Some? && Staged(In(c, p)) && (p.FirstLook? || p.Get?)
    requires Calm(Enact(cfg, s, t, LookMove(cfg, s, c, p, ch).effect))
    ensures var move := LookMove(cfg, s, c, p, ch); EarlyOk(cfg, s, Enact(cfg, s, t, move.effect), In(c, p), move)
  {
  }

  lemma LookKnows(cfg: Config, s: State, t: Tid, c: Call, p: Point, ch: Choice)
    requires cfg.maxBytes.Some? && Staged(In(c, p)) && (p.Judge? || p.SecondLook?)
    requires Calm(Enact(cfg, s, t, LookMove(cfg, s, c, p, ch).effect))
    ensures var move := LookMove(cfg, s, c, p, ch); EarlyOk(cfg, s, Enact(cfg, s, t, move.effect), In(c, p), move)
  {
  }

  lemma ServeKnows(cfg: Config, s: State, t: Tid, c: Call, p: Point)
    requires cfg.maxBytes.Some? && Knows(cfg.maxBytes.value, s.store, In(c, p)) && Staged(In(c, p))
    requires Serves(p) && Calm(Enact(cfg, s, t, ServeMove(c, p).effect))
    ensures var move := ServeMove(c, p); EarlyOk(cfg, s, Enact(cfg, s, t, move.effect), In(c, p), move)
  {
  }

  lemma ClassifyKnows(cfg: Config, s: State, t: Tid, c: Call, p: Point, ch: Choice)
    requires cfg.maxBytes.Some? && Knows(cfg.maxBytes.value, s.store, In(c, p)) && Staged(In(c, p))
    requires Classifies(p) && Calm(Enact(cfg, s, t, ClassifyMove(s, c, p, ch).effect))
    ensures var move := ClassifyMove(s, c, p, ch); EarlyOk(cfg, s, Enact(cfg, s, t, move.effect), In(c, p), move)
  {
  }

  lemma RunKnows(cfg: Config, f: Function, s: State, t: Tid, c: Call, p: Point, ch: Choice)
    requires cfg.maxBytes.Some? && Staged(In(c, p)) && (p.Calling? || p.Running? || p.Ran?)
    ensures var move := ComputeMove(f, c, p, ch); EarlyOk(cfg, s, Enact(cfg, s, t, move.effect), In(c, p), move)
  {
  }

  lemma CompareKnows(cfg: Config, f: Function, s: State, t: Tid, c: Call, p: Point, ch: Choice)
    requires cfg.maxBytes.Some? && Staged(In(c, p)) && (p.Comparing? || p.Unverified?)
    requires Calm(Enact(cfg, s, t, ComputeMove(f, c, p, ch).effect))
    ensures var move := ComputeMove(f, c, p, ch); EarlyOk(cfg, s, Enact(cfg, s, t, move.effect), In(c, p), move)
  {
  }

  lemma EarlyKnows(cfg: Config, f: Function, s: State, t: Tid, c: Call, p: Point, ch: Choice)
    requires cfg.maxBytes.Some? && Knows(cfg.maxBytes.value, s.store, In(c, p)) && Staged(In(c, p))
    requires Looks(p) || Serves(p) || Classifies(p) || Computes(p)
    requires Calm(Enact(cfg, s, t, CallMove(cfg, f, s, c, p, ch).effect))
    ensures var move := CallMove(cfg, f, s, c, p, ch); EarlyOk(cfg, s, Enact(cfg, s, t, move.effect), In(c, p), move)
  {
    if p.FirstLook? || p.Get? {
      FirstLookKnows(cfg, s, t, c, p, ch);
    } else if Looks(p) {
      LookKnows(cfg, s, t, c, p, ch);
    } else if Serves(p) {
      ServeKnows(cfg, s, t, c, p);
    } else if Classifies(p) {
      ClassifyKnows(cfg, s, t, c, p, ch);
    } else if p.Comparing? || p.Unverified? {
      CompareKnows(cfg, f, s, t, c, p, ch);
    } else {
      RunKnows(cfg, f, s, t, c, p, ch);
    }
  }

  predicate LateOk(cfg: Config, s: State, after: State, c: Call, p: Point, move: Move)
    requires cfg.maxBytes.Some?
  {
    && Knows(cfg.maxBytes.value, after.store, move.pc) && StoreMoves(s, after, In(c, p))
    && (move.effect.Enter? ==> move.effect.size <= cfg.maxBytes.value && p.Admitting?)
    && !move.effect.Drop?
    && (forall key :: key in after.store ==> key in s.store || Owes(move.pc, key))
  }

  lemma PrepareKnows(cfg: Config, s: State, t: Tid, c: Call, p: Point, ch: Choice)
    requires cfg.maxBytes.Some? && Knows(cfg.maxBytes.value, s.store, In(c, p)) && Staged(In(c, p))
    requires Prepares(p)
    ensures var move := PrepareMove(cfg, s, c, p, ch); LateOk(cfg, s, Enact(cfg, s, t, move.effect), c, p, move)
  {
    if p.Setting? {
    } else if p.Sizing? {
    } else {
    }
  }

  lemma FinishKnows(cfg: Config, s: State, t: Tid, c: Call, p: Point, ch: Choice)
    requires cfg.maxBytes.Some? && Knows(cfg.maxBytes.value, s.store, In(c, p)) && Staged(In(c, p))
    requires Finishes(p) && Calm(Enact(cfg, s, t, FinishMove(s, c, p, ch).effect))
    ensures var move := FinishMove(s, c, p, ch); LateOk(cfg, s, Enact(cfg, s, t, move.effect), c, p, move)
  {
  }

  lemma LateKnows(cfg: Config, f: Function, s: State, t: Tid, c: Call, p: Point, ch: Choice)
    requires cfg.maxBytes.Some? && Knows(cfg.maxBytes.value, s.store, In(c, p)) && Staged(In(c, p))
    requires Prepares(p) || Finishes(p)
    requires Calm(Enact(cfg, s, t, CallMove(cfg, f, s, c, p, ch).effect))
    ensures var move := CallMove(cfg, f, s, c, p, ch); LateOk(cfg, s, Enact(cfg, s, t, move.effect), c, p, move)
  {
    if Prepares(p) {
      PrepareKnows(cfg, s, t, c, p, ch);
    } else {
      FinishKnows(cfg, s, t, c, p, ch);
    }
  }

  lemma InvalidateKnows(cfg: Config, s: State, t: Tid, key: Key, p: InvPoint, ch: Choice)
    requires cfg.maxBytes.Some? && Knows(cfg.maxBytes.value, s.store, Inv(key, p))
    requires Calm(Enact(cfg, s, t, InvalidateMove(key, p, ch).effect))
    ensures var move := InvalidateMove(key, p, ch);
      EarlyOk(cfg, s, Enact(cfg, s, t, move.effect), Inv(key, p), move)
  {
  }

  /** A thread's move leaves what it owed covered, and owes what it rewrites or newly
    leaves uncovered. */
  predicate Settles(s: State, after: State, was: Pc, now: Pc, key: Key) {
    || Owes(now, key)
    || (&& key in s.store && key in after.store && after.store[key] == s.store[key]
        && (Tracked(s, key) || Owes(was, key) ==> Tracked(after, key)))
  }

  lemma PrepareSettles(cfg: Config, s: State, t: Tid, c: Call, p: Point, ch: Choice, key: Key)
    requires cfg.maxBytes.Some? && Knows(cfg.maxBytes.value, s.store, In(c, p)) && Staged(In(c, p))
    requires Fitting(cfg.maxBytes.value, s.budget) && Prepares(p)
    requires key in Enact(cfg, s, t, PrepareMove(cfg, s, c, p, ch).effect).store
    ensures var move := PrepareMove(cfg, s, c, p, ch); Settles(s, Enact(cfg, s, t, move.effect), In(c, p), move.pc, key)
  {
    if p.Admitting? {
      if Tracked(s, key) || key == c.key {
        AdmitCovers(s, c, p.e, cfg.maxBytes.value, key);
      }
    } else if p.Setting? {
    } else {
    }
  }

  lemma FinishSettles(cfg: Config, s: State, t: Tid, c: Call, p: Point, ch: Choice, key: Key)
    requires cfg.maxBytes.Some? && Knows(cfg.maxBytes.value, s.store, In(c, p))
    requires Finishes(p) && Calm(Enact(cfg, s, t, FinishMove(s, c, p, ch).effect))
    requires key in Enact(cfg, s, t, FinishMove(s, c, p, ch).effect).store
    ensures var move := FinishMove(s, c, p, ch); Settles(s, Enact(cfg, s, t, move.effect), In(c, p), move.pc, key)
  {
    if p.Evicting? {
    } else {
    }
  }

  /** Early moves write nothing and forget only what is gone. */
  lemma EarlySettles(cfg: Config, s: State, t: Tid, was: Pc, move: Move, key: Key)
    requires cfg.maxBytes.Some? && Fitting(cfg.maxBytes.value, s.budget)
    requires EarlyOk(cfg, s, Enact(cfg, s, t, move.effect), was, move)
    requires Owes(was, key) ==> Owes(move.pc, key)
    requires key in Enact(cfg, s, t, move.effect).store
    ensures Settles(s, Enact(cfg, s, t, move.effect), was, move.pc, key)
  {
    EffectTracks(cfg, s, t, move.effect, key);
    UnwrittenKept(cfg, s, t, move.effect, key);
  }

  lemma UnwrittenKept(cfg: Config, s: State, t: Tid, effect: Effect, key: Key)
    requires !effect.Write? && key in Enact(cfg, s, t, effect).store
    ensures key in s.store && Enact(cfg, s, t, effect).store[key] == s.store[key]
  {
  }

  lemma MoveSettles(cfg: Config, f: Function, s: State, t: Tid, pc: Pc, ch: Choice, key: Key)
    requires cfg.maxBytes.Some? && Knows(cfg.maxBytes.value, s.store, pc) && Staged(pc)
    requires Fitting(cfg.maxBytes.value, s.budget)
    requires Calm(Enact(cfg, s, t, ThreadMove(cfg, f, s, pc, ch).effect))
    requires key in Enact(cfg, s, t, ThreadMove(cfg, f, s, pc, ch).effect).store
    ensures var move := ThreadMove(cfg, f, s, pc, ch);
      Settles(s, Enact(cfg, s, t, move.effect), pc, move.pc, key)
  {
    if pc.In? && Prepares(pc.at) {
      PrepareSettles(cfg, s, t, pc.c, pc.at, ch, key);
    } else if pc.In? && Finishes(pc.at) {
      FinishSettles(cfg, s, t, pc.c, pc.at, ch, key);
    } else if pc.In? {
      EarlyKnows(cfg, f, s, t, pc.c, pc.at, ch);
      EarlySettles(cfg, s, t, pc, ThreadMove(cfg, f, s, pc, ch), key);
    } else if pc.Inv? {
      InvalidateKnows(cfg, s, t, pc.key, pc.point, ch);
      EarlySettles(cfg, s, t, pc, ThreadMove(cfg, f, s, pc, ch), key);
    } else {
      var move := ThreadMove(cfg, f, s, pc, ch);
      EffectTracks(cfg, s, t, move.effect, key);
      UnwrittenKept(cfg, s, t, move.effect, key);
    }
  }

  lemma MoveKnows(cfg: Config, f: Function, s: State, t: Tid, pc: Pc, ch: Choice)
    requires cfg.maxBytes.Some? && Knows(cfg.maxBytes.value, s.store, pc) && Staged(pc)
    requires Fitting(cfg.maxBytes.value, s.budget)
    requires Calm(Enact(cfg, s, t, ThreadMove(cfg, f, s, pc, ch).effect))
    ensures var move := ThreadMove(cfg, f, s, pc, ch); var after := Enact(cfg, s, t, move.effect);
      && Knows(cfg.maxBytes.value, after.store, move.pc) && StoreMoves(s, after, pc)
      && Fitting(cfg.maxBytes.value, after.budget)
  {
    if pc.In? {
      if Prepares(pc.at) || Finishes(pc.at) {
        LateKnows(cfg, f, s, t, pc.c, pc.at, ch);
      } else {
        EarlyKnows(cfg, f, s, t, pc.c, pc.at, ch);
      }
    } else if pc.Inv? {
      InvalidateKnows(cfg, s, t, pc.key, pc.point, ch);
    }
    EffectTracks(cfg, s, t, ThreadMove(cfg, f, s, pc, ch).effect, "");
  }

  // ------------------------------------------------------------------- every run

  /** A thread knows nothing about keys it does not hold. */
  lemma OtherKnows(maxBytes: nat, s: State, after: State, mover: Pc, other: Pc)
    requires Knows(maxBytes, s.store, other) && Staged(other) && StoreMoves(s, after, mover)
    requires HeldKey(other).Some? ==> HeldKey(other) != HeldKey(mover)
    ensures Knows(maxBytes, after.store, other)
  {
  }

  lemma CoveredKept(legacy: map<Key, Entry>, s: State, after: State, t: Tid, pc: Pc, key: Key)
    requires t in s.threads && Covered(legacy, s, key) && after.threads == s.threads
    requires Settles(s, after, s.threads[t], pc, key)
    ensures Covered(legacy, Place(after, t, pc), key)
  {
    var placed := Place(after, t, pc);
    if Owes(pc, key) {
      assert placed.threads[t] == pc;
    } else if !Left(legacy, s.store, key) && !Tracked(s, key) && !Owes(s.threads[t], key) {
      var u :| u in s.threads && Owes(s.threads[u], key);
      assert placed.threads[u] == s.threads[u];
    }
  }

  /** A key the moving thread has just written is covered by it alone. */
  lemma OwnCovered(legacy: map<Key, Entry>, after: State, t: Tid, pc: Pc, key: Key)
    requires Owes(pc, key)
    ensures Covered(legacy, Place(after, t, pc), key)
  {
    assert Place(after, t, pc).threads[t] == pc;
  }

  lemma GoKeepsKnows(legacy: map<Key, Entry>, cfg: Config, f: Function, s: State, t: Tid, ch: Choice)
    requires cfg.maxBytes.Some? && Bounded(legacy, cfg.maxBytes.value, s) && Enabled(cfg, s, Go(t, ch))
    requires Calm(Next(cfg, f, s, Go(t, ch)))
    ensures var after := Next(cfg, f, s, Go(t, ch));
      && Fitting(cfg.maxBytes.value, after.budget)
      && forall u :: u in after.threads ==> Knows(cfg.maxBytes.value, after.store, after.threads[u])
  {
    var pc := s.threads[t];
    var move := ThreadMove(cfg, f, s, pc, ch);
    var after := Enact(cfg, s, t, move.effect);
    MoveKnows(cfg, f, s, t, pc, ch);
    MoveHolds(cfg, f, s, t, pc, ch);
    forall u | u in s.threads && u != t ensures Knows(cfg.maxBytes.value, after.store, s.threads[u]) {
      OtherKnows(cfg.maxBytes.value, s, after, pc, s.threads[u]);
    }
  }

  lemma GoKeepsCovered(legacy: map<Key, Entry>, cfg: Config, f: Function, s: State, t: Tid, ch: Choice, key: Key)
    requires cfg.maxBytes.Some? && Bounded(legacy, cfg.maxBytes.value, s) && Enabled(cfg, s, Go(t, ch))
    requires Calm(Next(cfg, f, s, Go(t, ch))) && key in Next(cfg, f, s, Go(t, ch)).store
    ensures Covered(legacy, Next(cfg, f, s, Go(t, ch)), key)
  {
    var pc := s.threads[t];
    var move := ThreadMove(cfg, f, s, pc, ch);
    var after := Enact(cfg, s, t, move.effect);
    MoveHolds(cfg, f, s, t, pc, ch);
    MoveSettles(cfg, f, s, t, pc, ch, key);
    if Owes(move.pc, key) {
      OwnCovered(legacy, after, t, move.pc, key);
    } else {
      CoveredKept(legacy, s, after, t, move.pc, key);
    }
  }

  lemma TearBounded(legacy: map<Key, Entry>, maxBytes: nat, s: State, dep: Dep)
    requires Bounded(legacy, maxBytes, s)
    ensures Bounded(legacy, maxBytes, s.(dep := dep, threads := map t | t in s.threads :: Tear(s.threads[t])))
  {
    var after := s.(dep := dep, threads := map t | t in s.threads :: Tear(s.threads[t]));
    TearLocks(s, dep);
    forall t | t in s.threads ensures Knows(maxBytes, s.store, after.threads[t]) {
      assert Knows(maxBytes, s.store, s.threads[t]);
    }
    forall key | key in s.store ensures Covered(legacy, after, key) {
      if !Left(legacy, s.store, key) && !Tracked(s, key) {
        var t :| t in s.threads && Owes(s.threads[t], key);
        assert Owes(after.threads[t], key);
      }
    }
  }

  lemma StartBounded(legacy: map<Key, Entry>, maxBytes: nat, s: State, t: Tid, pc: Pc, past: Past)
    requires Bounded(legacy, maxBytes, s) && t in s.threads && s.threads[t] == Idle
    requires HeldKey(pc).None? && Staged(pc) && Knows(maxBytes, s.store, pc)
    ensures Bounded(legacy, maxBytes, Place(s.(past := past), t, pc))
  {
    var after := s.(past := past);
    HolderKeepsLocks(s, after, t, pc);
    forall key | key in s.store ensures Covered(legacy, Place(after, t, pc), key) {
      CoveredKept(legacy, s, after, t, pc, key);
    }
  }

  lemma StoreShrinks(maxBytes: nat, store: map<Key, Entry>, less: map<Key, Entry>, pc: Pc)
    requires Knows(maxBytes, store, pc) && forall key :: key in less ==> key in store && less[key] == store[key]
    ensures Knows(maxBytes, less, pc)
  {
  }

  lemma VanishBounded(legacy: map<Key, Entry>, maxBytes: nat, s: State, key: Key)
    requires Bounded(legacy, maxBytes, s)
    ensures Bounded(legacy, maxBytes, Removed(s, key))
  {
    var after := Removed(s, key);
    forall t | t in s.threads ensures Knows(maxBytes, after.store, s.threads[t]) {
      StoreShrinks(maxBytes, s.store, after.store, s.threads[t]);
    }
    forall k | k in after.store ensures Covered(legacy, after, k) {
      assert Covered(legacy, s, k);
    }
  }

  lemma BoundedKept(legacy: map<Key, Entry>, cfg: Config, f: Function, s: State, step: Step)
    requires cfg.maxBytes.Some? && Bounded(legacy, cfg.maxBytes.value, s) && Enabled(cfg, s, step)
    requires Calm(Next(cfg, f, s, step))
    ensures Bounded(legacy, cfg.maxBytes.value, Next(cfg, f, s, step))
  {
    match step {
      case Go(t, ch) =>
        LocksKept(cfg, f, s, step);
        GoKeepsKnows(legacy, cfg, f, s, t, ch);
        forall key | key in Next(cfg, f, s, step).store ensures Covered(legacy, Next(cfg, f, s, step), key) {
          GoKeepsCovered(legacy, cfg, f, s, t, ch, key);
        }
      case Start(t, key, verify) =>
        var c := NewCall(s, key, verify);
        StartBounded(legacy, cfg.maxBytes.value, s, t, if verify then Queued(c) else In(c, FirstLook),
                     s.past.(started := s.past.started + 1));
      case StartInvalidate(t, key) => StartBounded(legacy, cfg.maxBytes.value, s, t, InvQueued(key), s.past);
      case ChangeDep(dep) => TearBounded(legacy, cfg.maxBytes.value, s, dep);
      case Vanish(key) => VanishBounded(legacy, cfg.maxBytes.value, s, key);
      case ForeignCommit(_, _) =>
    }
  }

  lemma EnactCalm(cfg: Config, s: State, t: Tid, effect: Effect)
    requires Calm(Enact(cfg, s, t, effect))
    ensures Calm(s)
  {
  }

  /** A run that is calm at its end was calm all along. */
  lemma CalmBefore(cfg: Config, f: Function, s: State, step: Step)
    requires Enabled(cfg, s, step) && Calm(Next(cfg, f, s, step))
    ensures Calm(s)
  {
    if step.Go? {
      EnactCalm(cfg, s, step.t, ThreadMove(cfg, f, s, s.threads[step.t], step.choice).effect);
    }
  }

  /** The budget starts within bounds and tracks every stored key but the legacy, as
    rehydration leaves it. */
  predicate Rehydrated(legacy: map<Key, Entry>, maxBytes: nat, s: State) {
    && Quiescent(s) && s.holder == map[]
    && Fitting(maxBytes, s.budget)
    && forall key :: key in s.store ==> Left(legacy, s.store, key) || Tracked(s, key)
  }

  lemma {:induction false} BoundedHolds(legacy: map<Key, Entry>, cfg: Config, f: Function,
      trace: seq<State>, steps: seq<Step>, n: nat)
    requires cfg.maxBytes.Some? && Behavior(cfg, f, trace, steps) && n < |trace|
    requires Rehydrated(legacy, cfg.maxBytes.value, trace[0]) && Calm(trace[n])
    ensures Bounded(legacy, cfg.maxBytes.value, trace[n])
  {
    if n > 0 {
      CalmBefore(cfg, f, trace[n - 1], steps[n - 1]);
      BoundedHolds(legacy, cfg, f, trace, steps, n - 1);
      BoundedKept(legacy, cfg, f, trace[n - 1], steps[n - 1]);
    }
  }

  /** Every stored key is tracked with its size, or between its own `set` and
    `admit`, or evicted with its delete outstanding, or still holds an entry an
    earlier process left outside the bound. */
  lemma NothingEscapes(legacy: map<Key, Entry>, cfg: Config, f: Function,
      trace: seq<State>, steps: seq<Step>, n: nat, key: Key)
    requires cfg.maxBytes.Some? && Behavior(cfg, f, trace, steps) && n < |trace|
    requires Rehydrated(legacy, cfg.maxBytes.value, trace[0]) && Calm(trace[n])
    requires key in trace[n].store && !Left(legacy, trace[n].store, key)
    ensures Tracked(trace[n], key) || exists t :: t in trace[n].threads && Owes(trace[n].threads[t], key)
    ensures Total(trace[n].budget) <= cfg.maxBytes.value
  {
    BoundedHolds(legacy, cfg, f, trace, steps, n);
    assert Covered(legacy, trace[n], key);
  }

  function SizesOf(store: map<Key, Entry>): map<Key, nat> {
    map key | key in store :: store[key].size
  }

  /** At every quiescent state of every such run, the stored bytes are within
    `max_memory`, what is left of the legacy aside, however the keys are listed. */
  lemma MemoryIsBounded(legacy: map<Key, Entry>, cfg: Config, f: Function,
      trace: seq<State>, steps: seq<Step>, n: nat, keys: seq<Key>)
    requires cfg.maxBytes.Some? && Behavior(cfg, f, trace, steps) && n < |trace|
    requires Rehydrated(legacy, cfg.maxBytes.value, trace[0]) && Calm(trace[n])
    requires Quiescent(trace[n]) && Once(keys)
    requires forall key :: key in keys ==> key in trace[n].store && !Left(legacy, trace[n].store, key)
    ensures Bytes(SizesOf(trace[n].store), keys) <= cfg.maxBytes.value
  {
    BoundedHolds(legacy, cfg, f, trace, steps, n);
    forall key | key in keys ensures Tracked(trace[n], key) {
      assert Covered(legacy, trace[n], key);
    }
    TrackedBytes(SizesOf(trace[n].store), trace[n].budget, keys);
  }
}
