/** Per-key mutual exclusion within a process (src/cachau/flight.py).

  The registry maps a key to a slot; a slot is a lock plus a reference count.  One
  guarded section, one lock acquisition and one lock release are one step each.
  `Registry` gives the guarded sections on values, `KeyedLocks` is the class that
  runs them in place, and the machine below interleaves any number of threads. */
module Flight {
  type Key = string
  type Tid = nat
  type SlotId = nat

  /** `slots` is the dictionary; `counts` the waiter count of every slot made so far. */
  datatype Registry = Registry(slots: map<Key, SlotId>, counts: map<SlotId, int>, next: SlotId)

  /** The entry section of `holding`: find or create the key's slot, count one more. */
  function Take(r: Registry, key: Key): (Registry, SlotId) {
    var slot := if key in r.slots then r.slots[key] else r.next;
    var count := if key in r.slots && slot in r.counts then r.counts[slot] else 0;
    (Registry(r.slots[key := slot], r.counts[slot := count + 1], if key in r.slots then r.next else r.next + 1), slot)
  }

  /** `_release_ref`: count one less; the last one out removes the key. */
  function Drop(r: Registry, key: Key, slot: SlotId): Registry
    requires slot in r.counts
  {
    Registry(if r.counts[slot] == 1 then r.slots - {key} else r.slots, r.counts[slot := r.counts[slot] - 1], r.next)
  }

  class KeyedLocks {
    var slots: map<Key, SlotId>
    var counts: map<SlotId, int>
    var next: SlotId

    function Model(): Registry
      reads this
    {
      Registry(slots, counts, next)
    }

    constructor ()
      ensures Model() == Registry(map[], map[], 0)
    {
      slots, counts, next := map[], map[], 0;
    }

    method TakeRef(key: Key) returns (slot: SlotId)
      requires key in slots ==> slots[key] in counts
      modifies this
      ensures (Model(), slot) == Take(old(Model()), key)
    {
      if key in slots {
        slot := slots[key];
      } else {
        slot := next;
        next := next + 1;
        slots := slots[key := slot];
        counts := counts[slot := 0];
      }
      counts := counts[slot := counts[slot] + 1];
      ghost var expected := Take(old(Model()), key).0;
      assert slots == expected.slots;
      assert counts == expected.counts;
    }

    method ReleaseRef(key: Key, slot: SlotId)
      requires slot in counts
      modifies this
      ensures Model() == Drop(old(Model()), key, slot)
    {
      counts := counts[slot := counts[slot] - 1];
      if counts[slot] == 0 {
        slots := slots - {key};
      }
    }
  }

  // --------------------------------------------------------------- the machine

  /** Between taking and dropping a reference a thread waits, is inside, or is on
    its way out (after leaving, or after its blocked acquire was interrupted). */
  datatype Pc =
    | Out
    | Waiting(key: Key, slot: SlotId)
    | Inside(key: Key, slot: SlotId)
    | Leaving(key: Key, slot: SlotId)

  datatype State = State(registry: Registry, holders: map<SlotId, Tid>, pcs: map<Tid, Pc>)

  datatype Step = Enter(t: Tid, key: Key) | Acquire(t: Tid) | Interrupt(t: Tid) | Exit(t: Tid) | Leave(t: Tid)

  predicate Enabled(s: State, step: Step) {
    step.t in s.pcs
    && match step
       case Enter(t, _) => s.pcs[t] == Out
       case Acquire(t) => s.pcs[t].Waiting? && s.pcs[t].slot !in s.holders
       case Interrupt(t) => s.pcs[t].Waiting?
       case Exit(t) => s.pcs[t].Inside?
       case Leave(t) => s.pcs[t].Leaving? && s.pcs[t].slot in s.registry.counts
  }

  function Apply(s: State, step: Step): State
    requires Enabled(s, step)
  {
    match step
    case Enter(t, key) =>
      var (registry, slot) := Take(s.registry, key);
      s.(registry := registry, pcs := s.pcs[t := Waiting(key, slot)])
    case Acquire(t) =>
      s.(holders := s.holders[s.pcs[t].slot := t], pcs := s.pcs[t := Inside(s.pcs[t].key, s.pcs[t].slot)])
    case Interrupt(t) => s.(pcs := s.pcs[t := Leaving(s.pcs[t].key, s.pcs[t].slot)])
    case Exit(t) =>
      s.(holders := s.holders - {s.pcs[t].slot}, pcs := s.pcs[t := Leaving(s.pcs[t].key, s.pcs[t].slot)])
    case Leave(t) =>
      s.(registry := Drop(s.registry, s.pcs[t].key, s.pcs[t].slot), pcs := s.pcs[t := Out])
  }

  predicate Init(s: State) {
    s.registry == Registry(map[], map[], 0) && s.holders == map[] && forall t :: t in s.pcs ==> s.pcs[t] == Out
  }

  ghost predicate Behavior(trace: seq<State>, steps: seq<Step>) {
    && |trace| == |steps| + 1
    && Init(trace[0])
    && forall i :: 0 <= i < |steps| ==> Enabled(trace[i], steps[i]) && trace[i + 1] == Apply(trace[i], steps[i])
  }

  /** The threads between taking and dropping a reference on a key. */
  function Users(s: State, key: Key): set<Tid> {
    set t | t in s.pcs && s.pcs[t] != Out && s.pcs[t].key == key
  }

  /** Every user of a key shares the registered slot, the slot's count is the number
    of users, and the registry holds exactly the keys in use. */
  predicate Shared(s: State) {
    && (forall key :: key in s.registry.slots ==>
          s.registry.slots[key] in s.registry.counts && s.registry.counts[s.registry.slots[key]] == |Users(s, key)|)
    && (forall key :: key in s.registry.slots ==> Users(s, key) != {})
    && (forall t :: t in s.pcs && s.pcs[t] != Out ==>
          s.pcs[t].key in s.registry.slots && s.pcs[t].slot == s.registry.slots[s.pcs[t].key])
  }

  /** Different keys have different slots, all made so far. */
  predicate Separate(s: State) {
    && (forall key :: key in s.registry.slots ==> s.registry.slots[key] < s.registry.next)
    && (forall slot :: slot in s.registry.counts ==> slot < s.registry.next)
    && (forall a, b :: a in s.registry.slots && b in s.registry.slots && s.registry.slots[a] == s.registry.slots[b] ==>
          a == b)
  }

  /** The lock of a slot is held exactly by the thread inside it. */
  predicate Exclusive(s: State) {
    && (forall t :: t in s.pcs && s.pcs[t].Inside? ==> s.pcs[t].slot in s.holders && s.holders[s.pcs[t].slot] == t)
    && (forall slot :: slot in s.holders ==>
          var t := s.holders[slot]; t in s.pcs && s.pcs[t].Inside? && s.pcs[t].slot == slot)
  }

  predicate Inv(s: State) {
    Shared(s) && Separate(s) && Exclusive(s)
  }

  lemma EnterUsers(s: State, t: Tid, key: Key)
    requires Enabled(s, Enter(t, key))
    ensures forall k {:trigger Users(Apply(s, Enter(t, key)), k)} ::
      Users(Apply(s, Enter(t, key)), k) == if k == key then Users(s, k) + {t} else Users(s, k)
    ensures t !in Users(s, key)
  {
  }

  lemma EnterShares(s: State, t: Tid, key: Key)
    requires Inv(s) && Enabled(s, Enter(t, key))
    ensures Shared(Apply(s, Enter(t, key)))
  {
    var after := Apply(s, Enter(t, key));
    EnterUsers(s, t, key);
    assert t in Users(after, key);
    if key !in s.registry.slots {
      assert Users(s, key) == {};
    }
    forall k | k in after.registry.slots
      ensures after.registry.slots[k] in after.registry.counts
      ensures after.registry.counts[after.registry.slots[k]] == |Users(after, k)|
      ensures Users(after, k) != {}
    {
      if k != key {
        assert after.registry.slots[k] == s.registry.slots[k];
        assert after.registry.slots[k] != after.registry.slots[key];
      }
    }
  }

  lemma EnterKeeps(s: State, t: Tid, key: Key)
    requires Inv(s) && Enabled(s, Enter(t, key))
    ensures Inv(Apply(s, Enter(t, key)))
  {
    EnterShares(s, t, key);
    var after := Apply(s, Enter(t, key));
    assert Separate(after);
    assert Exclusive(after);
  }

  lemma LeaveUsers(s: State, t: Tid)
    requires Enabled(s, Leave(t))
    ensures forall k {:trigger Users(Apply(s, Leave(t)), k)} ::
      Users(Apply(s, Leave(t)), k) == if k == s.pcs[t].key then Users(s, k) - {t} else Users(s, k)
    ensures t in Users(s, s.pcs[t].key)
  {
  }

  lemma LeaveShares(s: State, t: Tid)
    requires Inv(s) && Enabled(s, Leave(t))
    ensures Shared(Apply(s, Leave(t)))
  {
    var after := Apply(s, Leave(t));
    var key := s.pcs[t].key;
    LeaveUsers(s, t);
    assert |Users(after, key)| == |Users(s, key)| - 1;
    forall k | k in after.registry.slots
      ensures after.registry.slots[k] in after.registry.counts
      ensures after.registry.counts[after.registry.slots[k]] == |Users(after, k)|
      ensures Users(after, k) != {}
    {
      if k != key {
        assert after.registry.slots[k] != s.registry.slots[key];
      }
    }
    forall u | u in after.pcs && after.pcs[u] != Out ensures after.pcs[u].key in after.registry.slots {
      assert u in Users(after, after.pcs[u].key);
    }
  }

  lemma LeaveKeeps(s: State, t: Tid)
    requires Inv(s) && Enabled(s, Leave(t))
    ensures Inv(Apply(s, Leave(t)))
  {
    LeaveShares(s, t);
    var after := Apply(s, Leave(t));
    assert Separate(after);
    assert Exclusive(after);
  }

  lemma MoveUsers(s: State, step: Step)
    requires Enabled(s, step) && (step.Acquire? || step.Interrupt? || step.Exit?)
    ensures forall k {:trigger Users(Apply(s, step), k)} :: Users(Apply(s, step), k) == Users(s, k)
  {
  }

  lemma AcquireExcludes(s: State, t: Tid)
    requires Exclusive(s) && Enabled(s, Acquire(t))
    ensures Exclusive(Apply(s, Acquire(t)))
  {
  }

  lemma ExitExcludes(s: State, t: Tid)
    requires Exclusive(s) && Enabled(s, Exit(t))
    ensures Exclusive(Apply(s, Exit(t)))
  {
  }

  lemma MoveExcludes(s: State, step: Step)
    requires Inv(s) && Enabled(s, step) && (step.Acquire? || step.Interrupt? || step.Exit?)
    ensures Exclusive(Apply(s, step))
  {
    match step {
      case Acquire(t) => AcquireExcludes(s, t);
      case Exit(t) => ExitExcludes(s, t);
      case Interrupt(_) =>
    }
  }

  lemma MoveKeeps(s: State, step: Step)
    requires Inv(s) && Enabled(s, step) && (step.Acquire? || step.Interrupt? || step.Exit?)
    ensures Inv(Apply(s, step))
  {
    var after := Apply(s, step);
    MoveUsers(s, step);
    MoveExcludes(s, step);
    assert after.registry == s.registry;
    assert Shared(after);
    assert Separate(after);
  }

  lemma {:induction false} InvariantHolds(trace: seq<State>, steps: seq<Step>, n: nat)
    requires Behavior(trace, steps) && n < |trace|
    ensures Inv(trace[n])
  {
    if n > 0 {
      InvariantHolds(trace, steps, n - 1);
      var s, step := trace[n - 1], steps[n - 1];
      match step {
        case Enter(t, key) => EnterKeeps(s, t, key);
        case Leave(t) => LeaveKeeps(s, t);
        case _ => MoveKeeps(s, step);
      }
    }
  }

  /** In every interleaving, interrupted acquires included: at most one thread is
    inside a key; all its users share one slot whose count is their number; and the
    registry holds the key exactly while that number is positive. */
  lemma KeyedLocksAreExclusive(trace: seq<State>, steps: seq<Step>, n: nat, key: Key)
    requires Behavior(trace, steps) && n < |trace|
    ensures var s := trace[n];
      && (forall t, u :: t in Users(s, key) && u in Users(s, key) && s.pcs[t].Inside? && s.pcs[u].Inside? ==> t == u)
      && (forall t :: t in Users(s, key) ==> key in s.registry.slots && s.pcs[t].slot == s.registry.slots[key])
      && (key in s.registry.slots <==> |Users(s, key)| > 0)
      && (key in s.registry.slots ==>
            && s.registry.slots[key] in s.registry.counts
            && s.registry.counts[s.registry.slots[key]] == |Users(s, key)|)
  {
    InvariantHolds(trace, steps, n);
    var s := trace[n];
    if |Users(s, key)| > 0 {
      var t :| t in Users(s, key);
    }
  }

  /** A finished registry keeps nothing: with every thread out, no key is left. */
  lemma NothingLeaks(trace: seq<State>, steps: seq<Step>, n: nat)
    requires Behavior(trace, steps) && n < |trace|
    requires forall t :: t in trace[n].pcs ==> trace[n].pcs[t] == Out
    ensures trace[n].registry.slots == map[]
  {
    InvariantHolds(trace, steps, n);
    assert forall key :: Users(trace[n], key) == {};
  }

  /** A lock nobody is inside is to be had: whoever enters and acquires is inside, and
    leaving puts everything back as it was. */
  lemma FreeLockIsTaken(s: State, t: Tid, key: Key)
    requires Inv(s) && t in s.pcs && s.pcs[t] == Out
    requires forall u :: u in Users(s, key) ==> !s.pcs[u].Inside?
    ensures Enabled(s, Enter(t, key))
    ensures var waiting := Apply(s, Enter(t, key));
      && Enabled(waiting, Acquire(t))
      && var inside := Apply(waiting, Acquire(t));
         && inside.pcs[t].Inside? && inside.pcs == s.pcs[t := inside.pcs[t]] && t in Users(inside, key)
         && Enabled(inside, Exit(t)) && BackTo(s, Apply(inside, Exit(t)), t)
  {
    EnterKeeps(s, t, key);
    var waiting := Apply(s, Enter(t, key));
    HolderIsUser(s, t, key);
    var inside := Apply(waiting, Acquire(t));
    var done := Apply(inside, Exit(t));
    assert done.holders == s.holders;
    PassLeaves(s, t, key, done);
  }

  /** So does giving up the wait. */
  lemma InterruptLeaves(s: State, t: Tid, key: Key)
    requires Inv(s) && t in s.pcs && s.pcs[t] == Out
    ensures Enabled(s, Enter(t, key)) && Enabled(Apply(s, Enter(t, key)), Interrupt(t))
    ensures BackTo(s, Apply(Apply(s, Enter(t, key)), Interrupt(t)), t)
  {
    EnterKeeps(s, t, key);
    PassLeaves(s, t, key, Apply(Apply(s, Enter(t, key)), Interrupt(t)));
  }

  /** The thread's last step gives the dictionary, the locks and the places of `s`. */
  predicate BackTo(s: State, last: State, t: Tid) {
    && Enabled(last, Leave(t))
    && var after := Apply(last, Leave(t));
       after.registry.slots == s.registry.slots && after.holders == s.holders && after.pcs == s.pcs
  }

  lemma HolderIsUser(s: State, t: Tid, key: Key)
    requires Inv(s) && Enabled(s, Enter(t, key))
    requires forall u :: u in Users(s, key) ==> !s.pcs[u].Inside?
    ensures Apply(s, Enter(t, key)).pcs[t].slot !in s.holders
  {
    forall slot | slot in s.holders
      ensures var u := s.holders[slot];
        u in Users(s, s.pcs[u].key) && s.pcs[u].Inside? && s.registry.slots[s.pcs[u].key] == slot
    {
    }
  }

  lemma PassLeaves(s: State, t: Tid, key: Key, last: State)
    requires Inv(s) && Enabled(s, Enter(t, key)) && last.holders == s.holders
    requires var entered := Apply(s, Enter(t, key));
      last.registry == entered.registry && last.pcs == s.pcs[t := Leaving(key, entered.pcs[t].slot)]
    ensures BackTo(s, last, t)
  {
    if key in s.registry.slots {
      assert s.registry.counts[s.registry.slots[key]] == |Users(s, key)| && Users(s, key) != {};
      assert s.registry.slots[key := s.registry.slots[key]] == s.registry.slots;
    } else {
      assert s.registry.slots[key := s.registry.next] - {key} == s.registry.slots;
    }
    assert s.pcs[t := Leaving(key, last.pcs[t].slot)][t := Out] == s.pcs;
  }

  /** A waiting thread can go in, or another is inside with the same lock. */
  lemma WaitersHaveAHolder(trace: seq<State>, steps: seq<Step>, n: nat, t: Tid)
    requires Behavior(trace, steps) && n < |trace| && t in trace[n].pcs && trace[n].pcs[t].Waiting?
    ensures var s := trace[n];
      || Enabled(s, Acquire(t))
      || exists u :: u in Users(s, s.pcs[t].key) && s.pcs[u] == Inside(s.pcs[t].key, s.pcs[t].slot)
  {
    InvariantHolds(trace, steps, n);
    var s := trace[n];
    if s.pcs[t].slot in s.holders {
      var u := s.holders[s.pcs[t].slot];
      assert u in Users(s, s.pcs[u].key);
      assert s.pcs[u] == Inside(s.pcs[t].key, s.pcs[t].slot);
    }
  }
}
