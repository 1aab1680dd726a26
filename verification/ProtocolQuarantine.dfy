/** Quarantine safety: over every run of the protocol machine, once `invalidate` has
  returned no later call is served anything that was committed before it, however
  often deletes and overwriting writes keep failing.

  Entries are stamped with the number of commits before theirs, and the barrier of a
  key is that number at its last invalidation. */
module ProtocolQuarantine {
  import opened Policy
  import opened Protocol
  import opened Wrappers

  /** The key's entry, if any, was committed after the key's last invalidation. */
  predicate Settled(store: map<Key, Entry>, past: Past, key: Key) {
    key in store ==> store[key].stamp >= Barrier(past, key)
  }

  predicate KeyOk(store: map<Key, Entry>, quarantine: set<Key>, past: Past, key: Key) {
    && (key in store ==> store[key].stamp < past.stamp)
    && Barrier(past, key) <= past.stamp
    && (key !in quarantine ==> Settled(store, past, key))
  }

  ghost predicate StampsOk(s: State) {
    forall key :: KeyOk(s.store, s.quarantine, s.past, key)
  }

  /** The entry a point carries towards being served. */
  function Carried(p: Point): Option<Entry> {
    match p
    case Judge(e) => Some(e)
    case SecondLook(e) => Some(e)
    case Touching(e) => Some(e)
    case Counting(e) => Some(e)
    case Calling(cached) => cached
    case Running(cached) => cached
    case Ran(cached, _) => cached
    case Comparing(e, _) => Some(e)
    case Leaving(Served(e)) => Some(e)
    case _ => None
  }

  /** The points before which the quarantine of the key may be lifted. */
  predicate Lifting(p: Point) {
    p.Unquarantine? || p.Admitting? || Finishes(p)
  }

  predicate Late(s: State, pc: Pc) {
    && (HasCall(pc) ==> pc.c.since <= pc.c.floor <= Barrier(s.past, pc.c.key))
    && (pc.In? ==>
          && (pc.at.Get? && pc.c.key in s.store ==> s.store[pc.c.key].stamp >= pc.c.floor)
          && (Carried(pc.at).Some? ==> Carried(pc.at).value.stamp >= pc.c.floor)
          && (Lifting(pc.at) ==> Settled(s.store, s.past, pc.c.key)))
  }

  ghost predicate Quarantined(s: State) {
    StampsOk(s) && forall t :: t in s.threads ==> Late(s, s.threads[t])
  }

  // ------------------------------------------------------------ one thread's move

  /** Writes stamp the current number; the quarantine is lifted of settled keys. */
  predicate EffectOk(s: State, effect: Effect, pc: Pc) {
    && (effect.Write? ==> effect.e.stamp == s.past.stamp)
    && (effect.Absolve? ==> Settled(s.store, s.past, effect.key))
    && (effect.RemoveInvalid? || effect.Condemn? ==> HeldKey(pc) == Some(effect.key))
  }

  lemma EffectStamps(cfg: Config, s: State, t: Tid, effect: Effect, pc: Pc)
    requires StampsOk(s) && EffectOk(s, effect, pc)
    ensures StampsOk(Enact(cfg, s, t, effect))
  {
    forall key ensures var after := Enact(cfg, s, t, effect); KeyOk(after.store, after.quarantine, after.past, key) {
      assert KeyOk(s.store, s.quarantine, s.past, key);
    }
  }

  /** What other threads see of a step. */
  ghost predicate Ages(s: State, after: State, pc: Pc) {
    && (forall key :: Barrier(s.past, key) <= Barrier(after.past, key))
    && (forall key :: HeldKey(pc) != Some(key) ==> Barrier(s.past, key) == Barrier(after.past, key))
    && (forall key :: key in after.store ==>
          (key in s.store && after.store[key] == s.store[key]) || after.store[key].stamp >= s.past.stamp)
  }

  lemma EffectBarriers(cfg: Config, s: State, t: Tid, effect: Effect, pc: Pc)
    requires StampsOk(s) && EffectOk(s, effect, pc)
    ensures var after := Enact(cfg, s, t, effect);
      && (forall key :: Barrier(s.past, key) <= Barrier(after.past, key))
      && (forall key :: HeldKey(pc) != Some(key) ==> Barrier(s.past, key) == Barrier(after.past, key))
  {
    forall key ensures Barrier(s.past, key) <= s.past.stamp {
      assert KeyOk(s.store, s.quarantine, s.past, key);
    }
  }

  lemma EffectStores(cfg: Config, s: State, t: Tid, effect: Effect, pc: Pc)
    requires EffectOk(s, effect, pc)
    ensures var after := Enact(cfg, s, t, effect);
      forall key :: key in after.store ==>
        (key in s.store && after.store[key] == s.store[key]) || after.store[key].stamp >= s.past.stamp
  {
  }

  lemma EffectAges(cfg: Config, s: State, t: Tid, effect: Effect, pc: Pc)
    requires StampsOk(s) && EffectOk(s, effect, pc)
    ensures Ages(s, Enact(cfg, s, t, effect), pc)
  {
    EffectBarriers(cfg, s, t, effect, pc);
    EffectStores(cfg, s, t, effect, pc);
  }

  /** What the move promises of where it goes, in terms of the state before: where it
    may lift the quarantine, the entry is settled, or just removed or written. */
  predicate Promises(s: State, effect: Effect, pc: Pc) {
    && (HasCall(pc) ==>
          pc.c.since <= pc.c.floor <= Barrier(s.past, pc.c.key) && !effect.RemoveInvalid? && !effect.Condemn?)
    && (pc.In? ==>
          && (pc.at.Get? && pc.c.key in s.store ==> s.store[pc.c.key].stamp >= pc.c.floor)
          && (Carried(pc.at).Some? ==> Carried(pc.at).value.stamp >= pc.c.floor)
          && (Lifting(pc.at) ==>
                Settled(s.store, s.past, pc.c.key) || effect == Remove(pc.c.key)
                || (effect.Write? && effect.key == pc.c.key)))
  }

  lemma EffectLate(cfg: Config, s: State, t: Tid, effect: Effect, was: Pc, pc: Pc)
    requires StampsOk(s) && EffectOk(s, effect, was) && Promises(s, effect, pc)
    ensures Late(Enact(cfg, s, t, effect), pc)
  {
    if HasCall(pc) {
      assert KeyOk(s.store, s.quarantine, s.past, pc.c.key);
    }
  }

  predicate MoveOk(s: State, move: Move, was: Pc) {
    EffectOk(s, move.effect, was) && Promises(s, move.effect, move.pc)
  }

  lemma FirstLookLate(cfg: Config, s: State, c: Call, p: Point, ch: Choice)
    requires KeyOk(s.store, s.quarantine, s.past, c.key) && Late(s, In(c, p)) && p.FirstLook?
    ensures MoveOk(s, LookMove(cfg, s, c, p, ch), In(c, p))
  {
  }

  lemma GetLate(cfg: Config, s: State, c: Call, p: Point, ch: Choice)
    requires KeyOk(s.store, s.quarantine, s.past, c.key) && Late(s, In(c, p)) && p.Get?
    ensures MoveOk(s, LookMove(cfg, s, c, p, ch), In(c, p))
  {
  }

  lemma JudgeLate(cfg: Config, s: State, c: Call, p: Point, ch: Choice)
    requires Late(s, In(c, p)) && p.Judge?
    ensures MoveOk(s, LookMove(cfg, s, c, p, ch), In(c, p))
  {
  }

  lemma SecondLookLate(cfg: Config, s: State, c: Call, p: Point, ch: Choice)
    requires Late(s, In(c, p)) && p.SecondLook?
    ensures MoveOk(s, LookMove(cfg, s, c, p, ch), In(c, p))
  {
  }

  lemma ServeLate(s: State, c: Call, p: Point)
    requires KeyOk(s.store, s.quarantine, s.past, c.key) && Late(s, In(c, p)) && Serves(p)
    ensures MoveOk(s, ServeMove(c, p), In(c, p))
  {
  }

  lemma PurgeLate(s: State, c: Call, p: Point, ch: Choice)
    requires KeyOk(s.store, s.quarantine, s.past, c.key) && Late(s, In(c, p)) && (p.Purge? || p.Unquarantine?)
    ensures MoveOk(s, ClassifyMove(s, c, p, ch), In(c, p))
  {
  }

  lemma DropLate(s: State, c: Call, p: Point, ch: Choice)
    requires Late(s, In(c, p)) && (p.Classify? || p.Reget? || p.DropStale?)
    ensures MoveOk(s, ClassifyMove(s, c, p, ch), In(c, p))
  {
  }

  lemma ForgetLate(s: State, c: Call, p: Point, ch: Choice)
    requires Late(s, In(c, p)) && (p.Forgetting? || p.PopMarker?)
    ensures MoveOk(s, ClassifyMove(s, c, p, ch), In(c, p))
  {
  }

  lemma AttributeLate(s: State, c: Call, p: Point, ch: Choice)
    requires Late(s, In(c, p)) && (p.Attribute? || p.CountMiss?)
    ensures MoveOk(s, ClassifyMove(s, c, p, ch), In(c, p))
  {
  }

  lemma RunLate(f: Function, s: State, c: Call, p: Point, ch: Choice)
    requires Late(s, In(c, p)) && (p.Calling? || p.Running? || p.Ran?)
    ensures MoveOk(s, ComputeMove(f, c, p, ch), In(c, p))
  {
  }

  lemma CompareLate(f: Function, s: State, c: Call, p: Point, ch: Choice)
    requires Late(s, In(c, p)) && (p.Comparing? || p.Unverified?)
    ensures MoveOk(s, ComputeMove(f, c, p, ch), In(c, p))
  {
  }

  lemma SizeLate(cfg: Config, s: State, c: Call, p: Point, ch: Choice)
    requires Late(s, In(c, p)) && (p.Recheck? || p.Stamping? || p.Sizing? || p.Skipping?)
    ensures MoveOk(s, PrepareMove(cfg, s, c, p, ch), In(c, p))
  {
  }

  lemma WriteLate(cfg: Config, s: State, c: Call, p: Point, ch: Choice)
    requires Late(s, In(c, p)) && (p.Setting? || p.Admitting?)
    ensures MoveOk(s, PrepareMove(cfg, s, c, p, ch), In(c, p))
  {
  }

  lemma FinishLate(s: State, c: Call, p: Point, ch: Choice)
    requires KeyOk(s.store, s.quarantine, s.past, c.key) && Late(s, In(c, p)) && Finishes(p)
    ensures MoveOk(s, FinishMove(s, c, p, ch), In(c, p))
  {
  }

  lemma MoveLate(cfg: Config, f: Function, s: State, t: Tid, pc: Pc, ch: Choice)
    requires StampsOk(s) && Late(s, pc)
    ensures var move := ThreadMove(cfg, f, s, pc, ch);
      EffectOk(s, move.effect, pc) && Late(Enact(cfg, s, t, move.effect), move.pc)
  {
    var move := ThreadMove(cfg, f, s, pc, ch);
    if pc.In? {
      assert KeyOk(s.store, s.quarantine, s.past, pc.c.key);
      if pc.at.FirstLook? {
        FirstLookLate(cfg, s, pc.c, pc.at, ch);
      } else if pc.at.Get? {
        GetLate(cfg, s, pc.c, pc.at, ch);
      } else if pc.at.Judge? {
        JudgeLate(cfg, s, pc.c, pc.at, ch);
      } else if pc.at.SecondLook? {
        SecondLookLate(cfg, s, pc.c, pc.at, ch);
      } else if Serves(pc.at) {
        ServeLate(s, pc.c, pc.at);
      } else if Classifies(pc.at) {
        if pc.at.Purge? || pc.at.Unquarantine? {
          PurgeLate(s, pc.c, pc.at, ch);
        } else if pc.at.Classify? || pc.at.Reget? || pc.at.DropStale? {
          DropLate(s, pc.c, pc.at, ch);
        } else if pc.at.Forgetting? || pc.at.PopMarker? {
          ForgetLate(s, pc.c, pc.at, ch);
        } else {
          AttributeLate(s, pc.c, pc.at, ch);
        }
      } else if pc.at.Comparing? || pc.at.Unverified? {
        CompareLate(f, s, pc.c, pc.at, ch);
      } else if Computes(pc.at) {
        RunLate(f, s, pc.c, pc.at, ch);
      } else if pc.at.Setting? || pc.at.Admitting? {
        WriteLate(cfg, s, pc.c, pc.at, ch);
      } else if Prepares(pc.at) {
        SizeLate(cfg, s, pc.c, pc.at, ch);
      } else {
        FinishLate(s, pc.c, pc.at, ch);
      }
    }
    EffectLate(cfg, s, t, move.effect, pc, move.pc);
  }

  // ------------------------------------------------------------------- every run

  lemma OtherLate(s: State, after: State, mover: Pc, other: Pc)
    requires StampsOk(s) && Late(s, other) && Staged(other) && Ages(s, after, mover)
    requires HeldKey(other).Some? ==> HeldKey(other) != HeldKey(mover)
    ensures Late(after, other)
  {
    if HasCall(other) {
      assert KeyOk(s.store, s.quarantine, s.past, other.c.key);
    }
  }

  lemma GoKeepsQuarantine(cfg: Config, f: Function, s: State, t: Tid, ch: Choice)
    requires Locks(s) && AllStaged(s) && Quarantined(s) && Enabled(cfg, s, Go(t, ch))
    ensures Quarantined(Next(cfg, f, s, Go(t, ch)))
  {
    var pc := s.threads[t];
    var move := ThreadMove(cfg, f, s, pc, ch);
    var after := Enact(cfg, s, t, move.effect);
    MoveLate(cfg, f, s, t, pc, ch);
    MoveHolds(cfg, f, s, t, pc, ch);
    EffectStamps(cfg, s, t, move.effect, pc);
    EffectAges(cfg, s, t, move.effect, pc);
    var placed := Place(after, t, move.pc);
    forall u | u in placed.threads ensures Late(placed, placed.threads[u]) {
      if u != t {
        OtherLate(s, after, pc, s.threads[u]);
      }
    }
  }

  lemma ForeignLate(s: State, key: Key, e: Entry, past: Past)
    requires Quarantined(s) && AllStaged(s) && e.stamp == s.past.stamp
    requires past.stamp == s.past.stamp + 1 && past.barrier == s.past.barrier
    ensures Quarantined(s.(store := s.store[key := e], past := past))
  {
    var after := s.(store := s.store[key := e], past := past);
    forall k ensures KeyOk(after.store, after.quarantine, after.past, k) {
      assert KeyOk(s.store, s.quarantine, s.past, k);
    }
    forall t | t in s.threads ensures Late(after, s.threads[t]) {
      assert Late(s, s.threads[t]);
      if HasCall(s.threads[t]) {
        assert KeyOk(s.store, s.quarantine, s.past, s.threads[t].c.key);
      }
    }
  }

  lemma TearLate(s: State, dep: Dep)
    requires Quarantined(s)
    ensures Quarantined(s.(dep := dep, threads := map t | t in s.threads :: Tear(s.threads[t])))
  {
    var after := s.(dep := dep, threads := map t | t in s.threads :: Tear(s.threads[t]));
    forall k ensures KeyOk(after.store, after.quarantine, after.past, k) {
      assert KeyOk(s.store, s.quarantine, s.past, k);
    }
    forall t | t in s.threads ensures Late(after, after.threads[t]) {
      assert Late(s, s.threads[t]);
    }
  }

  lemma VanishLate(s: State, key: Key)
    requires Quarantined(s)
    ensures Quarantined(Removed(s, key))
  {
    forall k ensures var after := Removed(s, key); KeyOk(after.store, after.quarantine, after.past, k) {
      assert KeyOk(s.store, s.quarantine, s.past, k);
    }
    forall t | t in s.threads ensures Late(Removed(s, key), s.threads[t]) {
      assert Late(s, s.threads[t]);
    }
  }

  lemma StartLate(s: State, t: Tid, pc: Pc, past: Past)
    requires Quarantined(s) && t in s.threads
    requires past.stamp == s.past.stamp && past.barrier == s.past.barrier
    requires Late(s, pc)
    ensures Quarantined(Place(s.(past := past), t, pc))
  {
    var after := Place(s.(past := past), t, pc);
    forall k ensures KeyOk(after.store, after.quarantine, after.past, k) {
      assert KeyOk(s.store, s.quarantine, s.past, k);
    }
    forall u | u in s.threads ensures Late(after, after.threads[u]) {
      assert u != t ==> Late(s, s.threads[u]);
    }
  }

  lemma QuarantinedKept(cfg: Config, f: Function, s: State, step: Step)
    requires Locks(s) && AllStaged(s) && Quarantined(s) && Enabled(cfg, s, step)
    ensures Quarantined(Next(cfg, f, s, step))
  {
    match step {
      case Go(t, ch) => GoKeepsQuarantine(cfg, f, s, t, ch);
      case Start(t, key, verify) =>
        var c := NewCall(s, key, verify);
        StartLate(s, t, if verify then Queued(c) else In(c, FirstLook), s.past.(started := s.past.started + 1));
      case StartInvalidate(t, key) => StartLate(s, t, InvQueued(key), s.past);
      case ChangeDep(dep) => TearLate(s, dep);
      case Vanish(key) => VanishLate(s, key);
      case ForeignCommit(key, e) =>
        ForeignLate(s, key, e.(stamp := s.past.stamp), s.past.(stamp := s.past.stamp + 1, foreign := true));
    }
  }

  /** No thread has started; the stored entries are stamped, nothing was invalidated. */
  predicate Stamped(s: State) {
    Quiescent(s) && s.holder == map[] && s.past.barrier == map[]
    && forall key :: key in s.store ==> s.store[key].stamp < s.past.stamp
  }

  lemma {:induction false} QuarantineHolds(cfg: Config, f: Function, trace: seq<State>, steps: seq<Step>, n: nat)
    requires Behavior(cfg, f, trace, steps) && n < |trace| && Stamped(trace[0])
    ensures Locks(trace[n]) && AllStaged(trace[n]) && Quarantined(trace[n])
  {
    if n > 0 {
      QuarantineHolds(cfg, f, trace, steps, n - 1);
      LocksKept(cfg, f, trace[n - 1], steps[n - 1]);
      QuarantinedKept(cfg, f, trace[n - 1], steps[n - 1]);
    }
  }

  /** A check that finds its key quarantined, before it reads the store or after, goes on
    to serve nothing: it queues for the lock, looks again under it or in a probe, or
    classifies the miss. */
  lemma QuarantineStopsTheCheck(cfg: Config, f: Function, s: State, t: Tid, ch: Choice)
    requires Enabled(cfg, s, Go(t, ch)) && s.threads[t].In? && s.threads[t].c.key in s.quarantine
    requires s.threads[t].at.FirstLook? || s.threads[t].at.SecondLook?
    ensures var pc := Next(cfg, f, s, Go(t, ch)).threads[t];
      pc.Queued? || (pc.In? && (pc.at.FirstLook? || pc.at.Classify? || pc.at == Leaving(Raised)))
  {
  }

  // ------------------------------------------------- an invalidation that returned

  lemma EffectBarrier(cfg: Config, s: State, t: Tid, effect: Effect, pc: Pc)
    requires StampsOk(s) && EffectOk(s, effect, pc)
    ensures var after := Enact(cfg, s, t, effect);
      && s.past.stamp <= after.past.stamp && s.past.started == after.past.started
      && (forall key :: Barrier(s.past, key) <= Barrier(after.past, key))
      && (effect.RemoveInvalid? || effect.Condemn? ==> Barrier(after.past, effect.key) == s.past.stamp)
  {
    EffectAges(cfg, s, t, effect, pc);
  }

  /** Stamps, barriers and call numbers only grow. */
  lemma Grows(cfg: Config, f: Function, s: State, step: Step, key: Key)
    requires Quarantined(s) && Enabled(cfg, s, step)
    ensures var after := Next(cfg, f, s, step);
      && s.past.stamp <= after.past.stamp && s.past.started <= after.past.started
      && Barrier(s.past, key) <= Barrier(after.past, key)
  {
    if step.Go? {
      MoveLate(cfg, f, s, step.t, s.threads[step.t], step.choice);
      EffectBarrier(cfg, s, step.t, ThreadMove(cfg, f, s, s.threads[step.t], step.choice).effect, s.threads[step.t]);
    }
  }

  lemma {:induction false} Grown(
      cfg: Config, f: Function, trace: seq<State>, steps: seq<Step>, i: nat, j: nat, key: Key)
    requires Behavior(cfg, f, trace, steps) && i <= j < |trace| && Stamped(trace[0])
    ensures trace[i].past.stamp <= trace[j].past.stamp && trace[i].past.started <= trace[j].past.started
    ensures Barrier(trace[i].past, key) <= Barrier(trace[j].past, key)
  {
    if i < j {
      Grown(cfg, f, trace, steps, i, j - 1, key);
      QuarantineHolds(cfg, f, trace, steps, j - 1);
      Grows(cfg, f, trace[j - 1], steps[j - 1], key);
    }
  }

  /** The thread has yet to delete the key's entry or to quarantine the key. */
  predicate Invalidating(s: State, u: Tid, key: Key) {
    u in s.threads && (s.threads[u] == Inv(key, InvDelete) || s.threads[u] == Inv(key, InvQuarantine))
  }

  predicate Raising(s: State, u: Tid, key: Key, mark: nat) {
    mark <= s.past.stamp && (Invalidating(s, u, key) || Barrier(s.past, key) >= mark)
  }

  lemma EnactStarted(cfg: Config, s: State, t: Tid, effect: Effect)
    ensures var after := Enact(cfg, s, t, effect);
      after.past.started == s.past.started && after.threads == s.threads
  {
  }

  lemma MoveRaises(cfg: Config, f: Function, s: State, t: Tid, ch: Choice, u: Tid, key: Key, mark: nat)
    requires Quarantined(s) && Enabled(cfg, s, Go(t, ch)) && Raising(s, u, key, mark)
    ensures var move := ThreadMove(cfg, f, s, s.threads[t], ch); var after := Enact(cfg, s, t, move.effect);
      && mark <= after.past.stamp
      && (Barrier(after.past, key) >= mark || (Invalidating(s, u, key) && (t == u ==> move.pc == Inv(key, InvQuarantine))))
  {
    var move := ThreadMove(cfg, f, s, s.threads[t], ch);
    MoveLate(cfg, f, s, t, s.threads[t], ch);
    EffectBarrier(cfg, s, t, move.effect, s.threads[t]);
  }

  lemma RaisingKept(cfg: Config, f: Function, s: State, step: Step, after: State, u: Tid, key: Key, mark: nat)
    requires Quarantined(s) && Enabled(cfg, s, step) && after == Next(cfg, f, s, step) && Raising(s, u, key, mark)
    ensures Raising(after, u, key, mark)
  {
    if step.Go? {
      MoveRaises(cfg, f, s, step.t, step.choice, u, key, mark);
      EnactStarted(cfg, s, step.t, ThreadMove(cfg, f, s, s.threads[step.t], step.choice).effect);
    }
  }

  /** Between trying its delete and returning, an invalidation raises the barrier. */
  lemma {:induction false} BarrierRaised(
      cfg: Config, f: Function, trace: seq<State>, steps: seq<Step>, d: nat, i: nat, u: Tid, key: Key)
    requires Behavior(cfg, f, trace, steps) && d <= i < |trace| && Stamped(trace[0])
    requires Invalidating(trace[d], u, key)
    ensures Raising(trace[i], u, key, trace[d].past.stamp)
  {
    if d < i {
      BarrierRaised(cfg, f, trace, steps, d, i - 1, u, key);
      QuarantineHolds(cfg, f, trace, steps, i - 1);
      RaisingKept(cfg, f, trace[i - 1], steps[i - 1], trace[i], u, key, trace[d].past.stamp);
    }
  }

  /** The thread's call is numbered, and started behind the barrier `mark` if its
    number is at least `first`. */
  predicate Behind(s: State, t: Tid, first: nat, key: Key, mark: nat) {
    t in s.threads && HasCall(s.threads[t]) ==>
      && s.threads[t].c.id < s.past.started
      && (s.threads[t].c.id >= first && s.threads[t].c.key == key ==> s.threads[t].c.since >= mark)
  }

  lemma SameCall(cfg: Config, f: Function, s: State, pc: Pc, ch: Choice)
    ensures var now := ThreadMove(cfg, f, s, pc, ch).pc;
      HasCall(now) ==> HasCall(pc) && now.c.id == pc.c.id && now.c.since == pc.c.since && now.c.key == pc.c.key
  {
    if pc.In? {
      var p := pc.at;
      if Looks(p) {
      } else if Serves(p) {
      } else if Classifies(p) {
      } else if Computes(p) {
      } else if Prepares(p) {
      } else {
      }
    }
  }

  lemma BehindKept(cfg: Config, f: Function, s: State, step: Step, t: Tid, first: nat, key: Key, mark: nat)
    requires Enabled(cfg, s, step) && Behind(s, t, first, key, mark) && Barrier(s.past, key) >= mark
    ensures Behind(Next(cfg, f, s, step), t, first, key, mark)
  {
    if step.Go? {
      var move := ThreadMove(cfg, f, s, s.threads[step.t], step.choice);
      SameCall(cfg, f, s, s.threads[step.t], step.choice);
      EnactStarted(cfg, s, step.t, move.effect);
    }
  }

  lemma NumberKept(cfg: Config, f: Function, s: State, step: Step, after: State, t: Tid, key: Key)
    requires Enabled(cfg, s, step) && after == Next(cfg, f, s, step) && Behind(s, t, 0, key, 0)
    ensures Behind(after, t, 0, key, 0)
  {
    BehindKept(cfg, f, s, step, t, 0, key, 0);
  }

  lemma BehindStep(
      cfg: Config, f: Function, s: State, step: Step, after: State, t: Tid, first: nat, key: Key, mark: nat)
    requires Enabled(cfg, s, step) && after == Next(cfg, f, s, step) && Quarantined(s)
    requires Behind(s, t, first, key, mark) && Barrier(s.past, key) >= mark
    ensures Behind(after, t, first, key, mark) && Barrier(after.past, key) >= mark
  {
    BehindKept(cfg, f, s, step, t, first, key, mark);
    Grows(cfg, f, s, step, key);
  }

  lemma {:induction false} BehindHolds(
      cfg: Config, f: Function, trace: seq<State>, steps: seq<Step>, i: nat, m: nat, t: Tid, first: nat, key: Key,
      mark: nat)
    requires Behavior(cfg, f, trace, steps) && i <= m < |trace| && Stamped(trace[0])
    requires Behind(trace[i], t, first, key, mark) && Barrier(trace[i].past, key) >= mark
    ensures Behind(trace[m], t, first, key, mark) && Barrier(trace[m].past, key) >= mark
  {
    if i < m {
      BehindHolds(cfg, f, trace, steps, i, m - 1, t, first, key, mark);
      QuarantineHolds(cfg, f, trace, steps, m - 1);
      BehindStep(cfg, f, trace[m - 1], steps[m - 1], trace[m], t, first, key, mark);
    }
  }

  lemma StartsNumbered(s: State, t: Tid, key: Key)
    requires Stamped(s)
    ensures Behind(s, t, 0, key, 0)
  {
  }

  lemma {:induction false} NumbersHold(
      cfg: Config, f: Function, trace: seq<State>, steps: seq<Step>, n: nat, t: Tid, key: Key)
    requires Behavior(cfg, f, trace, steps) && n < |trace| && Stamped(trace[0])
    ensures Behind(trace[n], t, 0, key, 0)
  {
    if n == 0 {
      StartsNumbered(trace[0], t, key);
    } else {
      NumbersHold(cfg, f, trace, steps, n - 1, t, key);
      NumberKept(cfg, f, trace[n - 1], steps[n - 1], trace[n], t, key);
    }
  }

  /** What the store holds was committed before. */
  lemma StoredBefore(cfg: Config, f: Function, trace: seq<State>, steps: seq<Step>, j: nat, d: nat, key: Key)
    requires Behavior(cfg, f, trace, steps) && Stamped(trace[0]) && j <= d < |trace| && key in trace[j].store
    ensures trace[j].store[key].stamp < trace[d].past.stamp
  {
    QuarantineHolds(cfg, f, trace, steps, j);
    assert KeyOk(trace[j].store, trace[j].quarantine, trace[j].past, key);
    Grown(cfg, f, trace, steps, j, d, key);
  }

  lemma AllStoredBefore(cfg: Config, f: Function, trace: seq<State>, steps: seq<Step>, d: nat, key: Key)
    requires Behavior(cfg, f, trace, steps) && Stamped(trace[0]) && d < |trace|
    ensures forall j :: 0 <= j <= d && key in trace[j].store ==> trace[j].store[key].stamp < trace[d].past.stamp
  {
    forall j | 0 <= j <= d && key in trace[j].store ensures trace[j].store[key].stamp < trace[d].past.stamp {
      StoredBefore(cfg, f, trace, steps, j, d, key);
    }
  }

  /** What a call is about to return it found behind the barrier it started behind. */
  lemma ServedSince(cfg: Config, f: Function, trace: seq<State>, steps: seq<Step>, m: nat, t: Tid)
    requires Behavior(cfg, f, trace, steps) && Stamped(trace[0]) && m < |trace|
    requires t in trace[m].threads && trace[m].threads[t].In? && trace[m].threads[t].at.Leaving?
    requires trace[m].threads[t].at.r.Served?
    ensures trace[m].threads[t].at.r.entry.stamp >= trace[m].threads[t].c.since
  {
    QuarantineHolds(cfg, f, trace, steps, m);
    assert Late(trace[m], trace[m].threads[t]);
  }

  /** Thread `u`, invalidating `key`, is about to try its delete at `d` and has
    returned at `i`.  A call of `key` that started after `i` and is about to return a
    cached entry at `m` returns one committed after `d`: none that the store held at
    any time up to `d`. */
  lemma NothingCondemnedIsServed(
      cfg: Config, f: Function, trace: seq<State>, steps: seq<Step>, d: nat, i: nat, m: nat, u: Tid, t: Tid, key: Key)
    requires Behavior(cfg, f, trace, steps) && Stamped(trace[0])
    requires d <= i <= m < |trace|
    requires Invalidating(trace[d], u, key) && u in trace[i].threads && trace[i].threads[u] == Idle
    requires t in trace[m].threads && trace[m].threads[t].In? && trace[m].threads[t].at.Leaving?
    requires trace[m].threads[t].c.key == key && trace[m].threads[t].c.id >= trace[i].past.started
    requires trace[m].threads[t].at.r.Served?
    ensures forall j :: 0 <= j <= d && key in trace[j].store ==> trace[j].store[key] != trace[m].threads[t].at.r.entry
    ensures trace[m].threads[t].at.r.entry.stamp >= trace[d].past.stamp
  {
    var mark := trace[d].past.stamp;
    BarrierRaised(cfg, f, trace, steps, d, i, u, key);
    NumbersHold(cfg, f, trace, steps, i, t, key);
    BehindHolds(cfg, f, trace, steps, i, m, t, trace[i].past.started, key, mark);
    ServedSince(cfg, f, trace, steps, m, t);
    AllStoredBefore(cfg, f, trace, steps, d, key);
  }
}
