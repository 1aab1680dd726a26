/** The memory bound across restarts: a store that already holds entries, with the
  budget as `_rehydrate_budget` leaves it (src/cachau/decorator.py), starts the protocol
  machine within the bound, but for what rehydration could not bring in. */
module ProtocolRestart {
  import opened Ledgers
  import opened Policy
  import opened Protocol
  import opened ProtocolBudget
  import opened Sorting
  import opened Wrappers
  import Rehydrate

  /** The rows replayed, oldest first. */
  function Replayed(rows: seq<Rehydrate.Row>, namespace: string, fingerprint: string): seq<Rehydrate.Sized> {
    Sort(Rehydrate.AgeLeq, Rehydrate.SizedRows(rows, namespace, fingerprint))
  }

  /** What is left of them in the budget. */
  function Kept(rows: seq<Rehydrate.Row>, namespace: string, fingerprint: string, maxBytes: nat): seq<Slot> {
    Rehydrate.LongestSuffix(Rehydrate.Fitting(Replayed(rows, namespace, fingerprint), maxBytes), maxBytes)
  }

  /** The state of a process that has just decorated its function: `RehydrateBudget`
    has run over the rows of the store, and no call has been made. */
  ghost predicate Decorated(maxBytes: nat, s: State, rows: seq<Rehydrate.Row>, namespace: string, fingerprint: string,
      before: set<Key>, refuses: set<Key>)
  {
    && Quiescent(s) && s.holder == map[]
    && Rehydrate.OwnKeys(rows)
    && (forall key :: key in s.store ==>
          exists row :: row in rows && row.key == key && (row.size.Some? ==> row.size.value == s.store[key].size))
    && Distinct(s.budget)
    && s.budget == Kept(rows, namespace, fingerprint, maxBytes)
    && Rehydrate.Reclaimed(before, s.store.Keys, Rehydrate.KeySet(Replayed(rows, namespace, fingerprint)),
                           Sizes(s.budget).Keys, refuses)
  }

  /** A row the budget cannot have: unsized, of another implementation or namespace, or
    one whose delete fails. */
  predicate Outside(row: Rehydrate.Row, namespace: string, fingerprint: string, refuses: set<Key>) {
    row.size.None? || !Rehydrate.Current(row, namespace, fingerprint) || row.key in refuses
  }

  function Legacy(store: map<Key, Entry>, rows: seq<Rehydrate.Row>, namespace: string, fingerprint: string,
      refuses: set<Key>): map<Key, Entry>
  {
    var keys := set row | row in rows && Outside(row, namespace, fingerprint, refuses) :: row.key;
    map key | key in store && key in keys :: store[key]
  }

  lemma {:induction false} SizesAreSlots(slots: seq<Slot>, key: Key)
    requires key in Sizes(slots)
    ensures Slot(key, Sizes(slots)[key]) in slots
  {
    if key != slots[0].key {
      SizesAreSlots(slots[1..], key);
    }
  }

  lemma {:induction false} SlotsAreRows(rows: seq<Rehydrate.Sized>, maxBytes: nat, slot: Slot)
    requires slot in Rehydrate.Fitting(rows, maxBytes)
    ensures exists row :: row in rows && row.key == slot.key && row.size == slot.size
  {
    var before, last := rows[..|rows| - 1], rows[|rows| - 1];
    if slot in Rehydrate.Fitting(before, maxBytes) {
      SlotsAreRows(before, maxBytes, slot);
    } else {
      assert last in rows;
    }
  }

  lemma ReplayedRow(rows: seq<Rehydrate.Row>, namespace: string, fingerprint: string, x: Rehydrate.Sized)
    requires x in Replayed(rows, namespace, fingerprint)
    ensures exists row :: row in rows && row.key == x.key && row.size == Some(x.size)
  {
    var found := Rehydrate.SizedRows(rows, namespace, fingerprint);
    Rehydrate.ReplayIsOldestFirst(found, found);
    assert x in multiset(Replayed(rows, namespace, fingerprint));
    assert x in multiset(found);
    Rehydrate.SizedRowsAreCurrent(rows, namespace, fingerprint);
    assert x in found;
    var row :| row in rows && row.size.Some?
      && x == Rehydrate.Sized(if row.createdAt.Some? then row.createdAt.value else 0, row.key, row.size.value);
    assert row.key == x.key && row.size == Some(x.size);
  }

  /** What the budget tracks has the size its row says. */
  lemma TrackedAsListed(rows: seq<Rehydrate.Row>, namespace: string, fingerprint: string, maxBytes: nat, key: Key)
    requires key in Sizes(Kept(rows, namespace, fingerprint, maxBytes))
    ensures var size := Sizes(Kept(rows, namespace, fingerprint, maxBytes))[key];
      exists row :: row in rows && row.key == key && row.size == Some(size)
  {
    var sized, slots := Replayed(rows, namespace, fingerprint), Kept(rows, namespace, fingerprint, maxBytes);
    SizesAreSlots(slots, key);
    var slot := Slot(key, Sizes(slots)[key]);
    assert slot in Rehydrate.Fitting(sized, maxBytes);
    SlotsAreRows(sized, maxBytes, slot);
    var x :| x in sized && x.key == slot.key && x.size == slot.size;
    ReplayedRow(rows, namespace, fingerprint, x);
  }

  lemma StoredIsTracked(maxBytes: nat, s: State, rows: seq<Rehydrate.Row>, namespace: string, fingerprint: string,
      before: set<Key>, refuses: set<Key>, key: Key)
    requires Decorated(maxBytes, s, rows, namespace, fingerprint, before, refuses) && key in s.store
    ensures Left(Legacy(s.store, rows, namespace, fingerprint, refuses), s.store, key) || Tracked(s, key)
  {
    var row :| row in rows && row.key == key && (row.size.Some? ==> row.size.value == s.store[key].size);
    if !Outside(row, namespace, fingerprint, refuses) {
      Rehydrate.ChoresAreDisjoint(rows, namespace, fingerprint, row);
      assert key in Rehydrate.KeySet(Replayed(rows, namespace, fingerprint));
      assert key in Sizes(s.budget);
      TrackedAsListed(rows, namespace, fingerprint, maxBytes, key);
      var listed :| listed in rows && listed.key == key && listed.size == Some(Sizes(s.budget)[key]);
      assert listed == row;
    }
  }

  lemma RehydrationStarts(maxBytes: nat, s: State, rows: seq<Rehydrate.Row>, namespace: string, fingerprint: string,
      before: set<Key>, refuses: set<Key>)
    requires Decorated(maxBytes, s, rows, namespace, fingerprint, before, refuses)
    ensures Rehydrated(Legacy(s.store, rows, namespace, fingerprint, refuses), maxBytes, s)
  {
    Rehydrate.LongestSuffixIsLongest(Rehydrate.Fitting(Replayed(rows, namespace, fingerprint), maxBytes), maxBytes, 0);
    forall key | key in s.store
      ensures Left(Legacy(s.store, rows, namespace, fingerprint, refuses), s.store, key) || Tracked(s, key)
    {
      StoredIsTracked(maxBytes, s, rows, namespace, fingerprint, before, refuses, key);
    }
  }

  /** The limit holds across restarts: in every run that starts from a rehydrated
    store, at every quiescent state, the stored bytes are within `max_memory`, but for
    entries that were there at the start, that the budget could not have, and that
    nobody has rewritten since. */
  lemma BoundedAcrossRestarts(cfg: Config, f: Function, trace: seq<State>, steps: seq<Step>, n: nat,
      rows: seq<Rehydrate.Row>, namespace: string, fingerprint: string, before: set<Key>, refuses: set<Key>,
      keys: seq<Key>)
    requires cfg.maxBytes.Some? && Behavior(cfg, f, trace, steps) && n < |trace|
    requires Decorated(cfg.maxBytes.value, trace[0], rows, namespace, fingerprint, before, refuses)
    requires Calm(trace[n]) && Quiescent(trace[n]) && Once(keys)
    requires var legacy := Legacy(trace[0].store, rows, namespace, fingerprint, refuses);
      forall key :: key in keys ==> key in trace[n].store && !Left(legacy, trace[n].store, key)
    ensures Bytes(SizesOf(trace[n].store), keys) <= cfg.maxBytes.value
  {
    RehydrationStarts(cfg.maxBytes.value, trace[0], rows, namespace, fingerprint, before, refuses);
    MemoryIsBounded(Legacy(trace[0].store, rows, namespace, fingerprint, refuses), cfg, f, trace, steps, n, keys);
  }
}
