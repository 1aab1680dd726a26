/** Single flight: over every run of the protocol machine, between two executions of
  the function for one key something made the first one's entry unservable. */
module ProtocolFlight {
  import opened Policy
  import opened Protocol
  import opened Wrappers

  /** The thread executes the function for its key on a miss. */
  predicate Executes(cfg: Config, f: Function, s: State, step: Step, key: Key) {
    step.Go? && step.t in s.threads
    && ThreadMove(cfg, f, s, s.threads[step.t], step.choice).effect == Execute(key)
  }

  /** The effect removes the key's entry, quarantines the key, finds its entry stale
    under the lock, or ends an execution without a commit (it raised, its result was
    skipped, its write failed, or the re-observation or the clock behind it raised). */
  predicate Disarms(s: State, effect: Effect, key: Key) {
    match effect
    case Remove(k) => k == key && key in s.store
    case RemoveInvalid(k) => k == key && key in s.store
    case Condemn(k) => k == key
    case Tick(_, broken) => broken == Some(key)
    case Fail(exit) => exit == Execution(key) || exit == Afterwards(Some(key))
    case Bump(score) => score == Skip(key)
    case _ => false
  }

  /** A thread's step breaks the key's entry so, or it vanishes from outside. */
  predicate Breaks(cfg: Config, f: Function, s: State, step: Step, key: Key) {
    match step
    case Vanish(k) => k == key && key in s.store
    case Go(t, ch) => t in s.threads && Disarms(s, ThreadMove(cfg, f, s, s.threads[t], ch).effect, key)
    case _ => false
  }

  /** Between running the function on a miss and the write. */
  predicate Owing(pc: Pc) {
    pc.In? && ((pc.at.Running? && pc.at.cached.None?) || (pc.at.Ran? && pc.at.cached.None?)
               || (Prepares(pc.at) && !pc.at.Admitting?))
  }

  /** Between running the function on a miss and lifting the quarantine. */
  predicate Committing(pc: Pc) {
    pc.In? && ((pc.at.Running? && pc.at.cached.None?) || (pc.at.Ran? && pc.at.cached.None?)
               || Prepares(pc.at) || Finishes(pc.at))
  }

  /** Between finding nothing to serve and running the function. */
  predicate Missing(pc: Pc) {
    pc.In? && ((Classifies(pc.at) && !(pc.at.Forgetting? && pc.at.after.AfterMismatch?)) || pc.at == Calling(None))
  }

  /** What is known of an armed key held by a thread at `pc`. */
  predicate ArmedAt(s: State, key: Key, pc: Pc) {
    key in s.past.armed ==> (key in s.store || Owing(pc)) && (key in s.quarantine ==> Committing(pc)) && !Missing(pc)
  }

  /** What is known of an armed key nobody holds. */
  predicate ArmedFree(s: State, key: Key) {
    key in s.past.armed ==> key in s.store && key !in s.quarantine
  }

  ghost predicate Armed(s: State) {
    && (forall key :: key in s.past.armed && key !in s.holder ==> ArmedFree(s, key))
    && (forall t :: t in s.threads && HeldKey(s.threads[t]).Some? ==>
          ArmedAt(s, HeldKey(s.threads[t]).value, s.threads[t]))
  }

  // ------------------------------------------------------------ one thread's move

  /** What a step may do to a key it does not hold. */
  predicate LeavesArmed(s: State, after: State, key: Key) {
    key in after.past.armed ==>
      key in s.past.armed && (key in s.store ==> key in after.store) && (key in after.quarantine ==> key in s.quarantine)
  }

  /** Only the holder of a key executes it or condemns it. */
  predicate OwnEffect(effect: Effect, pc: Pc) {
    (effect.Execute? || effect.Condemn? ==> HeldKey(pc) == Some(effect.key))
  }

  lemma EffectLeavesArmed(cfg: Config, s: State, t: Tid, effect: Effect, pc: Pc, key: Key)
    requires OwnEffect(effect, pc) && HeldKey(pc) != Some(key)
    ensures LeavesArmed(s, Enact(cfg, s, t, effect), key)
  {
  }

  lemma OwnMove(cfg: Config, f: Function, s: State, pc: Pc, ch: Choice)
    requires Staged(pc)
    ensures OwnEffect(ThreadMove(cfg, f, s, pc, ch).effect, pc)
  {
    if pc.In? {
      if Looks(pc.at) {
      } else if Serves(pc.at) {
      } else if Classifies(pc.at) {
      } else if Computes(pc.at) {
      } else if Prepares(pc.at) {
      } else {
      }
    }
  }

  /** The fact about the held key after a move: still held, or free. */
  predicate ArmedAfter(after: State, key: Key, now: Pc) {
    if HeldKey(now) == Some(key) then ArmedAt(after, key, now) else ArmedFree(after, key)
  }

  lemma LookArms(cfg: Config, s: State, t: Tid, c: Call, p: Point, ch: Choice)
    requires Looks(p) && c.stage != Fast && ArmedAt(s, c.key, In(c, p))
    ensures var move := LookMove(cfg, s, c, p, ch); ArmedAfter(Enact(cfg, s, t, move.effect), c.key, move.pc)
  {
  }

  lemma ServeArms(cfg: Config, s: State, t: Tid, c: Call, p: Point)
    requires Serves(p) && c.stage != Fast && ArmedAt(s, c.key, In(c, p))
    ensures var move := ServeMove(c, p); ArmedAfter(Enact(cfg, s, t, move.effect), c.key, move.pc)
  {
  }

  lemma ClassifyArms(cfg: Config, s: State, t: Tid, c: Call, p: Point, ch: Choice)
    requires Classifies(p) && c.stage != Fast && ArmedAt(s, c.key, In(c, p))
    ensures var move := ClassifyMove(s, c, p, ch); ArmedAfter(Enact(cfg, s, t, move.effect), c.key, move.pc)
  {
  }

  /** A step that touches neither the key's entry, its quarantine nor its arming. */
  predicate Spares(effect: Effect) {
    effect.Nothing? || effect.Relist? || effect.Refuse? || effect.Use? || effect.Enter?
    || (effect.Bump? && !effect.score.Skip?)
  }

  lemma SparedArms(cfg: Config, s: State, t: Tid, effect: Effect, key: Key, was: Pc, now: Pc)
    requires Spares(effect) && ArmedAt(s, key, was) && HeldKey(now) == Some(key)
    requires (Owing(was) ==> Owing(now) || key in s.store) && (Committing(was) ==> Committing(now))
    requires !Missing(now)
    ensures ArmedAfter(Enact(cfg, s, t, effect), key, now)
  {
  }

  lemma ComputeArms(cfg: Config, f: Function, s: State, t: Tid, c: Call, p: Point, ch: Choice)
    requires Computes(p) && c.stage != Fast && ArmedAt(s, c.key, In(c, p))
    ensures var move := ComputeMove(f, c, p, ch); ArmedAfter(Enact(cfg, s, t, move.effect), c.key, move.pc)
  {
    var move := ComputeMove(f, c, p, ch);
    if Spares(move.effect) && !(p.Calling? && p.cached.None?) {
      SparedArms(cfg, s, t, move.effect, c.key, In(c, p), move.pc);
    }
  }

  lemma PrepareArms(cfg: Config, s: State, t: Tid, c: Call, p: Point, ch: Choice)
    requires Prepares(p) && c.stage != Fast && ArmedAt(s, c.key, In(c, p))
    ensures var move := PrepareMove(cfg, s, c, p, ch); ArmedAfter(Enact(cfg, s, t, move.effect), c.key, move.pc)
  {
  }

  lemma FinishArms(cfg: Config, s: State, t: Tid, c: Call, p: Point, ch: Choice)
    requires Finishes(p) && c.stage != Fast && ArmedAt(s, c.key, In(c, p))
    ensures var move := FinishMove(s, c, p, ch); ArmedAfter(Enact(cfg, s, t, move.effect), c.key, move.pc)
  {
    var move := FinishMove(s, c, p, ch);
    if Spares(move.effect) {
      SparedArms(cfg, s, t, move.effect, c.key, In(c, p), move.pc);
    }
  }

  lemma InvalidateArms(cfg: Config, s: State, t: Tid, key: Key, p: InvPoint, ch: Choice)
    requires ArmedAt(s, key, Inv(key, p))
    ensures var move := InvalidateMove(key, p, ch); ArmedAfter(Enact(cfg, s, t, move.effect), key, move.pc)
  {
  }

  /** A move keeps the fact about the key the thread holds. */
  lemma MoveArms(cfg: Config, f: Function, s: State, t: Tid, pc: Pc, ch: Choice, key: Key)
    requires HeldKey(pc) == Some(key) && ArmedAt(s, key, pc)
    ensures var move := ThreadMove(cfg, f, s, pc, ch); ArmedAfter(Enact(cfg, s, t, move.effect), key, move.pc)
  {
    if pc.Inv? {
      InvalidateArms(cfg, s, t, key, pc.point, ch);
    } else if Looks(pc.at) {
      LookArms(cfg, s, t, pc.c, pc.at, ch);
    } else if Serves(pc.at) {
      ServeArms(cfg, s, t, pc.c, pc.at);
    } else if Classifies(pc.at) {
      ClassifyArms(cfg, s, t, pc.c, pc.at, ch);
    } else if Computes(pc.at) {
      ComputeArms(cfg, f, s, t, pc.c, pc.at, ch);
    } else if Prepares(pc.at) {
      PrepareArms(cfg, s, t, pc.c, pc.at, ch);
    } else {
      FinishArms(cfg, s, t, pc.c, pc.at, ch);
    }
  }

  // ------------------------------------------------------------------- every run

  /** Taking a lock finds the key free. */
  lemma LockArms(s: State, key: Key, pc: Pc)
    requires ArmedFree(s, key) && (pc.In? ==> Looks(pc.at))
    ensures ArmedAt(s, key, pc)
  {
  }

  lemma GoKeepsArmed(cfg: Config, f: Function, s: State, t: Tid, ch: Choice)
    requires Locks(s) && AllStaged(s) && Armed(s) && Enabled(cfg, s, Go(t, ch))
    ensures Armed(Next(cfg, f, s, Go(t, ch)))
  {
    var pc := s.threads[t];
    var move := ThreadMove(cfg, f, s, pc, ch);
    var after := Enact(cfg, s, t, move.effect);
    var placed := Place(after, t, move.pc);
    MoveHolds(cfg, f, s, t, pc, ch);
    OwnMove(cfg, f, s, pc, ch);
    if HeldKey(pc).Some? {
      MoveArms(cfg, f, s, t, pc, ch, HeldKey(pc).value);
    } else if HeldKey(move.pc).Some? {
      LockArms(s, HeldKey(move.pc).value, move.pc);
    }
    forall key | key in placed.past.armed && key !in placed.holder ensures ArmedFree(placed, key) {
      if HeldKey(pc) != Some(key) {
        EffectLeavesArmed(cfg, s, t, move.effect, pc, key);
      }
    }
    forall u | u in placed.threads && u != t && HeldKey(placed.threads[u]).Some?
      ensures ArmedAt(placed, HeldKey(placed.threads[u]).value, placed.threads[u])
    {
      EffectLeavesArmed(cfg, s, t, move.effect, pc, HeldKey(s.threads[u]).value);
    }
  }

  lemma TearArmed(s: State, dep: Dep)
    requires Armed(s)
    ensures Armed(s.(dep := dep, threads := map t | t in s.threads :: Tear(s.threads[t])))
  {
    var after := s.(dep := dep, threads := map t | t in s.threads :: Tear(s.threads[t]));
    forall t | t in s.threads && HeldKey(after.threads[t]).Some?
      ensures ArmedAt(after, HeldKey(after.threads[t]).value, after.threads[t])
    {
      assert HeldKey(after.threads[t]) == HeldKey(s.threads[t]);
    }
  }

  lemma ArmedKept(cfg: Config, f: Function, s: State, step: Step)
    requires Locks(s) && AllStaged(s) && Armed(s) && Enabled(cfg, s, step)
    ensures Armed(Next(cfg, f, s, step))
  {
    match step {
      case Go(t, ch) => GoKeepsArmed(cfg, f, s, t, ch);
      case ChangeDep(dep) => TearArmed(s, dep);
      case _ =>
    }
  }

  /** No thread has started, nothing is armed: where the claims start from. */
  predicate Fresh(s: State) {
    Quiescent(s) && s.holder == map[] && s.past.armed == {}
  }

  lemma {:induction false} ArmedHolds(cfg: Config, f: Function, trace: seq<State>, steps: seq<Step>, n: nat)
    requires Behavior(cfg, f, trace, steps) && n < |trace| && Fresh(trace[0])
    ensures Locks(trace[n]) && AllStaged(trace[n]) && Armed(trace[n])
  {
    if n > 0 {
      ArmedHolds(cfg, f, trace, steps, n - 1);
      LocksKept(cfg, f, trace[n - 1], steps[n - 1]);
      ArmedKept(cfg, f, trace[n - 1], steps[n - 1]);
    }
  }

  lemma EffectDisarms(cfg: Config, s: State, t: Tid, effect: Effect, key: Key)
    requires key in s.past.armed && key !in Enact(cfg, s, t, effect).past.armed
    ensures Disarms(s, effect, key)
  {
  }

  lemma DisarmBreaks(cfg: Config, f: Function, s: State, step: Step, key: Key)
    requires Enabled(cfg, s, step) && key in s.past.armed && key !in Next(cfg, f, s, step).past.armed
    ensures Breaks(cfg, f, s, step, key)
  {
    if step.Go? {
      EffectDisarms(cfg, s, step.t, ThreadMove(cfg, f, s, s.threads[step.t], step.choice).effect, key);
    }
  }

  lemma {:induction false} SomethingBroke(
      cfg: Config, f: Function, trace: seq<State>, steps: seq<Step>, i: nat, j: nat, key: Key)
    requires Behavior(cfg, f, trace, steps) && i <= j < |trace|
    requires key in trace[i].past.armed && key !in trace[j].past.armed
    ensures exists l :: i <= l < j && Breaks(cfg, f, trace[l], steps[l], key)
  {
    if key in trace[j - 1].past.armed {
      DisarmBreaks(cfg, f, trace[j - 1], steps[j - 1], key);
    } else {
      SomethingBroke(cfg, f, trace, steps, i, j - 1, key);
    }
  }

  /** Whoever executes finds the key broken since its last execution. */
  lemma ExecuteUnarmed(cfg: Config, f: Function, s: State, step: Step, key: Key)
    requires AllStaged(s) && Armed(s) && Enabled(cfg, s, step) && Executes(cfg, f, s, step, key)
    ensures key !in s.past.armed && key in Next(cfg, f, s, step).past.armed
  {
    var pc := s.threads[step.t];
    assert Staged(pc);
    assert pc.In? && Computes(pc.at) && pc.at == Calling(None);
  }

  lemma ExecutesAt(cfg: Config, f: Function, trace: seq<State>, steps: seq<Step>, i: nat, key: Key)
    requires Behavior(cfg, f, trace, steps) && Fresh(trace[0]) && i < |steps|
    requires Executes(cfg, f, trace[i], steps[i], key)
    ensures key !in trace[i].past.armed && key in trace[i + 1].past.armed
  {
    ArmedHolds(cfg, f, trace, steps, i);
    ExecuteUnarmed(cfg, f, trace[i], steps[i], key);
  }

  /** However many threads call it, the function is executed again for a key only
    after the entry was removed, the key quarantined, the entry found stale under the
    lock, or the previous execution ended without a commit.  With none of these the
    key is computed at most once. */
  lemma SingleFlight(cfg: Config, f: Function, trace: seq<State>, steps: seq<Step>, i: nat, j: nat, key: Key)
    requires Behavior(cfg, f, trace, steps) && Fresh(trace[0])
    requires i < j < |steps|
    requires Executes(cfg, f, trace[i], steps[i], key) && Executes(cfg, f, trace[j], steps[j], key)
    ensures exists l :: i < l < j && Breaks(cfg, f, trace[l], steps[l], key)
  {
    ExecutesAt(cfg, f, trace, steps, i, key);
    ExecutesAt(cfg, f, trace, steps, j, key);
    SomethingBroke(cfg, f, trace, steps, i + 1, j, key);
  }
}
