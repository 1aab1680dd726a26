/** Decoration-time chores over a store that already holds entries
  (src/cachau/decorator.py, `_rehydrate_budget` and `_purge_stale_fingerprints`).

  The store is its metadata rows, one per key; `refuses` names the keys whose
  deletes fail. */
module Rehydrate {
  import opened Bytes
  import opened Policy
  import opened Sorting
  import opened Wrappers

  datatype Row = Row(key: Key, namespace: string, size: Option<nat>, createdAt: Option<int>)

  /** One sized row of the current fingerprint, as the source's sort key. */
  datatype Sized = Sized(createdAt: int, key: Key, size: nat)

  class Store {
    var keys: set<Key>
    const refuses: set<Key>

    constructor (keys: set<Key>, refuses: set<Key>)
      ensures this.keys == keys && this.refuses == refuses
    {
      this.keys := keys;
      this.refuses := refuses;
    }

    /** A delete that may fail; the caller learns which. */
    method Delete(key: Key) returns (ok: bool)
      modifies this
      ensures ok == (key !in refuses)
      ensures keys == if ok then old(keys) - {key} else old(keys)
    {
      ok := key !in refuses;
      if ok {
        keys := keys - {key};
      }
    }
  }

  /** A store lists one row per key. */
  ghost predicate OwnKeys(rows: seq<Row>) {
    forall i, j :: 0 <= i < j < |rows| ==> rows[i].key != rows[j].key
  }

  function Prefix(namespace: string, fingerprint: string): string {
    namespace + ":" + fingerprint + ":"
  }

  predicate StartsWith(s: string, prefix: string) {
    |prefix| <= |s| && s[..|prefix|] == prefix
  }

  /** A row of this function's current implementation. */
  predicate Current(row: Row, namespace: string, fingerprint: string) {
    row.namespace == namespace && StartsWith(row.key, Prefix(namespace, fingerprint))
  }

  /** A row left behind by another implementation of this function. */
  predicate Stale(row: Row, namespace: string, fingerprint: string) {
    row.namespace == namespace && !StartsWith(row.key, Prefix(namespace, fingerprint))
  }

  /** The key of a call: the function's namespace and fingerprint, and the digest of its
    arguments. */
  function BuildKey(namespace: string, fingerprint: string, digest: string): string {
    namespace + ":" + fingerprint + ":" + digest
  }

  /** A row of this namespace is current exactly when its key was built with the present
    fingerprint, and stale when it was built with another. */
  lemma KeysTellImplementations(row: Row, namespace: string, fingerprint: string, other: string, digest: string)
    requires ':' !in fingerprint && ':' !in other
    requires row.namespace == namespace && row.key == BuildKey(namespace, other, digest)
    ensures Current(row, namespace, fingerprint) <==> other == fingerprint
    ensures Stale(row, namespace, fingerprint) <==> other != fingerprint
  {
    var prefix := Prefix(namespace, fingerprint);
    var head := namespace + ":";
    assert row.key == head + (other + [':'] + digest) && prefix == head + (fingerprint + [':']);
    if other == fingerprint {
      assert row.key == prefix + digest;
    }
    if StartsWith(row.key, prefix) {
      var rest := row.key[|prefix|..];
      assert row.key == prefix + rest;
      assert prefix + rest == head + (fingerprint + [':'] + rest);
      FixedSplit(head, other + [':'] + digest, head, fingerprint + [':'] + rest);
      DelimitedSplit(other, digest, fingerprint, rest, ':');
    }
  }

  function SizedRows(rows: seq<Row>, namespace: string, fingerprint: string): seq<Sized> {
    if rows == [] then []
    else
      var rest := SizedRows(rows[1..], namespace, fingerprint);
      var row := rows[0];
      if Current(row, namespace, fingerprint) && row.size.Some? then
        [Sized(if row.createdAt.Some? then row.createdAt.value else 0, row.key, row.size.value)] + rest
      else rest
  }

  /** Oldest first; the key, then the size, break ties. */
  predicate AgeLeq(a: Sized, b: Sized) {
    a.createdAt < b.createdAt
    || (a.createdAt == b.createdAt
        && (if a.key == b.key then a.size <= b.size else StringLeq(a.key, b.key)))
  }

  lemma AgeIsTotalOrder()
    ensures TotalOrder(AgeLeq)
  {
    LexIsTotalOrder();
    forall x, y | AgeLeq(x, y) && AgeLeq(y, x) ensures x == y {
      if x.key != y.key {
        CodesInjective(x.key, y.key);
      }
    }
    forall x, y, z | AgeLeq(x, y) && AgeLeq(y, z) ensures AgeLeq(x, z) {
      if x.createdAt == y.createdAt == z.createdAt && x.key != z.key && x.key != y.key && y.key != z.key {
        LexTransitive(Codes(x.key), Codes(y.key), Codes(z.key));
      } else if x.createdAt == y.createdAt == z.createdAt && x.key == z.key && x.key != y.key {
        LexTotal(Codes(x.key), Codes(y.key));
        CodesInjective(x.key, y.key);
      }
    }
  }

  /** The replay order is oldest first, whatever order the store lists its rows in. */
  lemma ReplayIsOldestFirst(rows: seq<Sized>, again: seq<Sized>)
    requires multiset(rows) == multiset(again)
    ensures var sorted := Sort(AgeLeq, rows);
      && SortedBy(AgeLeq, sorted) && multiset(sorted) == multiset(rows) && sorted == Sort(AgeLeq, again)
      && forall i, j :: 0 <= i < j < |sorted| ==>
           sorted[i].createdAt < sorted[j].createdAt
           || (sorted[i].createdAt == sorted[j].createdAt && StringLeq(sorted[i].key, sorted[j].key))
  {
    AgeIsTotalOrder();
    SortSorted(AgeLeq, rows);
    SortForgetsOrder(AgeLeq, rows, again);
    StringIsTotalOrder();
    forall i, j | 0 <= i < j < |Sort(AgeLeq, rows)| ensures AgeLeq(Sort(AgeLeq, rows)[i], Sort(AgeLeq, rows)[j]) {
      SortedAt(AgeLeq, Sort(AgeLeq, rows), i, j);
    }
  }

  // ------------------------------------------------------------ what it leaves

  /** The rows that fit the budget on their own, as slots. */
  function Fitting(rows: seq<Sized>, maxBytes: nat): seq<Slot> {
    if rows == [] then []
    else
      var row := rows[|rows| - 1];
      Fitting(rows[..|rows| - 1], maxBytes) + if row.size <= maxBytes then [Slot(row.key, row.size)] else []
  }

  /** They are the rows no larger than the limit, oldest first. */
  lemma {:induction false} FittingAreRows(rows: seq<Sized>, maxBytes: nat, slot: Slot)
    ensures slot in Fitting(rows, maxBytes) <==>
      slot.size <= maxBytes && exists row :: row in rows && row.key == slot.key && row.size == slot.size
    decreases |rows|
  {
    if rows != [] {
      var before, last := rows[..|rows| - 1], rows[|rows| - 1];
      FittingAreRows(before, maxBytes, slot);
      assert rows == before + [last];
    }
  }

  /** The longest run of newest slots that is within budget. */
  function LongestSuffix(slots: seq<Slot>, maxBytes: nat): seq<Slot> {
    slots[Overflow(slots, 0, maxBytes)..]
  }

  function KeySet(rows: seq<Sized>): set<Key> {
    set row | row in rows :: row.key
  }

  /** It is a suffix, it is within budget, and no longer suffix is. */
  lemma LongestSuffixIsLongest(slots: seq<Slot>, maxBytes: nat, n: nat)
    requires n <= |slots|
    ensures Total(LongestSuffix(slots, maxBytes)) <= maxBytes
    ensures Total(slots[n..]) <= maxBytes ==> |slots[n..]| <= |LongestSuffix(slots, maxBytes)|
  {
    OverflowIsShortest(slots, 0, maxBytes);
  }

  /** A newcomer that fits on its own makes room like `size` more bytes do. */
  lemma {:induction false} OverflowOfOneMore(slots: seq<Slot>, slot: Slot, maxBytes: nat)
    requires slot.size <= maxBytes
    ensures Overflow(slots + [slot], 0, maxBytes) == Overflow(slots, slot.size, maxBytes)
  {
    if slots == [] {
      assert slots + [slot] == [slot];
      assert Total([slot]) == slot.size;
    } else {
      ConcatFacts(slots, [slot]);
      assert Total([slot]) == slot.size;
      assert (slots + [slot])[1..] == slots[1..] + [slot];
      OverflowOfOneMore(slots[1..], slot, maxBytes);
    }
  }

  /** Making room in two goes. */
  lemma {:induction false} OverflowTwice(slots: seq<Slot>, size: nat, maxBytes: nat)
    ensures var d := Overflow(slots, 0, maxBytes);
      Overflow(slots, size, maxBytes) == d + Overflow(slots[d..], size, maxBytes)
  {
    var d := Overflow(slots, 0, maxBytes);
    if d == 0 {
      assert slots[d..] == slots;
    } else {
      OverflowTwice(slots[1..], size, maxBytes);
      assert slots[1..][d - 1..] == slots[d..];
    }
  }

  /** Admitting one more row to the longest suffix leaves the longest suffix. */
  lemma AdmitNewest(slots: seq<Slot>, slot: Slot, maxBytes: nat)
    requires slot.size <= maxBytes && slot.key !in Sizes(slots)
    ensures Admit(LongestSuffix(slots, maxBytes), slot.key, slot.size, maxBytes)
         == LongestSuffix(slots + [slot], maxBytes)
  {
    var d := Overflow(slots, 0, maxBytes);
    var kept := slots[d..];
    var e := Overflow(kept, slot.size, maxBytes);
    assert Forget(kept, slot.key) == kept by {
      SuffixKeys(slots, maxBytes);
      ForgetFacts(kept, slot.key);
    }
    assert Admit(kept, slot.key, slot.size, maxBytes) == kept[e..] + [slot];
    assert LongestSuffix(slots + [slot], maxBytes) == (slots + [slot])[d + e..] by {
      OverflowOfOneMore(slots, slot, maxBytes);
      OverflowTwice(slots, slot.size, maxBytes);
    }
  }

  /** No two rows share a key, whatever the order. */
  ghost predicate OneRowPerKey(rows: multiset<Sized>) {
    && (forall x :: x in rows ==> rows[x] == 1)
    && (forall x, y :: x in rows && y in rows && x.key == y.key ==> x == y)
  }

  lemma {:induction false} SizedRowsAreRows(rows: seq<Row>, namespace: string, fingerprint: string, x: Sized)
    requires x in SizedRows(rows, namespace, fingerprint)
    ensures exists row :: row in rows && row.key == x.key
  {
    var found, tail := SizedRows(rows, namespace, fingerprint), SizedRows(rows[1..], namespace, fingerprint);
    assert rows[0] in rows;
    if x in tail {
      SizedRowsAreRows(rows[1..], namespace, fingerprint, x);
    } else {
      assert found == [found[0]] + tail && x == found[0];
    }
  }

  lemma {:induction false} SizedRowsOnePerKey(rows: seq<Row>, namespace: string, fingerprint: string)
    requires OwnKeys(rows)
    ensures OneRowPerKey(multiset(SizedRows(rows, namespace, fingerprint)))
  {
    if rows != [] {
      var rest := rows[1..];
      SizedRowsOnePerKey(rest, namespace, fingerprint);
      var all, tail := SizedRows(rows, namespace, fingerprint), SizedRows(rest, namespace, fingerprint);
      if all != tail {
        forall x | x in tail ensures x.key != rows[0].key {
          SizedRowsAreRows(rest, namespace, fingerprint, x);
        }
        AddOneRow(tail, all[0]);
        assert all == [all[0]] + tail;
      }
    }
  }

  lemma AddOneRow(rows: seq<Sized>, row: Sized)
    requires OneRowPerKey(multiset(rows)) && forall x :: x in rows ==> x.key != row.key
    ensures OneRowPerKey(multiset([row] + rows))
  {
    assert multiset([row] + rows) == multiset{row} + multiset(rows);
    assert row !in rows;
  }

  /** Each row's key differs from the keys before it. */
  predicate NewKeys(rows: seq<Sized>) {
    rows == [] || (NewKeys(rows[..|rows| - 1]) && rows[|rows| - 1].key !in KeySet(rows[..|rows| - 1]))
  }

  lemma {:induction false} OneRowNewKeys(rows: seq<Sized>)
    requires OneRowPerKey(multiset(rows))
    ensures NewKeys(rows)
  {
    if rows != [] {
      var before, last := rows[..|rows| - 1], rows[|rows| - 1];
      assert rows == before + [last];
      assert multiset(rows) == multiset(before) + multiset{last};
      assert last in multiset(rows) && multiset(rows)[last] == 1;
      assert last !in multiset(before);
      forall row | row in before ensures row.key != last.key {
        assert row in multiset(before);
      }
      forall x | x in multiset(before) ensures multiset(before)[x] == 1 && x in multiset(rows) {
        assert multiset(before)[x] <= multiset(rows)[x];
      }
      OneRowNewKeys(before);
    }
  }

  lemma {:induction false} NextRow(rows: seq<Sized>, i: nat)
    requires NewKeys(rows) && i < |rows|
    ensures rows[..i + 1] == rows[..i] + [rows[i]] && rows[i].key !in KeySet(rows[..i])
  {
    var before := rows[..|rows| - 1];
    if i < |before| {
      NextRow(before, i);
      assert before[..i] == rows[..i];
    }
  }

  lemma {:induction false} FittingKeys(rows: seq<Sized>, maxBytes: nat)
    ensures Sizes(Fitting(rows, maxBytes)).Keys <= KeySet(rows)
  {
    if rows != [] {
      var before, row := rows[..|rows| - 1], rows[|rows| - 1];
      FittingKeys(before, maxBytes);
      assert rows == before + [row];
      var fitting := Fitting(before, maxBytes);
      assert fitting + [] == fitting;
      if row.size <= maxBytes {
        ConcatFacts(fitting, [Slot(row.key, row.size)]);
        assert Sizes([Slot(row.key, row.size)]) == map[row.key := row.size];
      }
    }
  }

  lemma SuffixKeys(slots: seq<Slot>, maxBytes: nat)
    ensures Sizes(LongestSuffix(slots, maxBytes)).Keys <= Sizes(slots).Keys
  {
    var d := Overflow(slots, 0, maxBytes);
    assert slots == slots[..d] + slots[d..];
    ConcatFacts(slots[..d], slots[d..]);
  }

  lemma {:induction false} KeysOfFacts(slots: seq<Slot>)
    ensures |KeysOf(slots)| == |slots|
    ensures (set key | key in KeysOf(slots)) == Sizes(slots).Keys
  {
    if slots != [] {
      KeysOfFacts(slots[1..]);
      assert KeysOf(slots)[1..] == KeysOf(slots[1..]);
      assert (set key | key in KeysOf(slots)) == {slots[0].key} + set key | key in KeysOf(slots[1..]);
    }
  }

  /** The keys of `seen` no longer tracked are gone from the store, except those
    whose delete failed. */
  ghost predicate Reclaimed(before: set<Key>, now: set<Key>, seen: set<Key>, tracked: set<Key>, refuses: set<Key>) {
    now == before - (seen - tracked - refuses)
  }

  method DeleteAll(store: Store, keys: seq<Key>)
    modifies store
    ensures store.keys == old(store.keys) - ((set key | key in keys) - store.refuses)
  {
    for i := 0 to |keys|
      invariant store.keys == old(store.keys) - ((set key | key in keys[..i]) - store.refuses)
    {
      assert keys[..i + 1] == keys[..i] + [keys[i]];
      var _ := store.Delete(keys[i]);
    }
    assert keys[..|keys|] == keys;
  }

  method AdmitRow(store: Store, budget: LRUBudget, row: Sized) returns (evictions: nat)
    requires budget.Valid() && row.size <= budget.maxBytes && row.key !in Sizes(budget.Slots())
    modifies store, budget
    ensures budget.Valid() && budget.Slots() == Admit(old(budget.Slots()), row.key, row.size, budget.maxBytes)
    ensures row.key in Sizes(budget.Slots())
    ensures Sizes(budget.Slots()).Keys <= Sizes(old(budget.Slots())).Keys + {row.key}
    ensures store.keys == old(store.keys) - (Sizes(old(budget.Slots())).Keys - Sizes(budget.Slots()).Keys - store.refuses)
    ensures |budget.Slots()| + evictions == |old(budget.Slots())| + 1
  {
    ghost var was := budget.Slots();
    AdmitFacts(was, row.key, row.size, budget.maxBytes);
    ForgetFacts(was, row.key);
    var evicted := budget.AdmitKey(row.key, row.size);
    ghost var gone := Evicted(was, row.key, row.size, budget.maxBytes);
    KeysOfFacts(gone);
    assert Sizes(was).Keys - Sizes(budget.Slots()).Keys == Sizes(gone).Keys;
    DeleteAll(store, evicted);
    evictions := |evicted|;
  }

  lemma FittingStep(prefix: seq<Sized>, row: Sized, maxBytes: nat)
    requires row.key !in KeySet(prefix)
    ensures var was, now := Fitting(prefix, maxBytes), Fitting(prefix + [row], maxBytes);
      && now == (if row.size <= maxBytes then was + [Slot(row.key, row.size)] else was)
      && row.key !in Sizes(was)
    ensures row.key !in Sizes(LongestSuffix(Fitting(prefix, maxBytes), maxBytes))
    ensures KeySet(prefix + [row]) == KeySet(prefix) + {row.key}
    ensures Sizes(LongestSuffix(Fitting(prefix, maxBytes), maxBytes)).Keys <= KeySet(prefix)
  {
    assert (prefix + [row])[..|prefix|] == prefix;
    FittingKeys(prefix, maxBytes);
    SuffixKeys(Fitting(prefix, maxBytes), maxBytes);
  }

  /** Replay one row on top of those already replayed. */
  method ReplayRow(store: Store, budget: LRUBudget, row: Sized, ghost prefix: seq<Sized>, ghost before: set<Key>)
    returns (evictions: nat)
    requires budget.Valid() && row.key !in KeySet(prefix)
    requires budget.Slots() == LongestSuffix(Fitting(prefix, budget.maxBytes), budget.maxBytes)
    requires Reclaimed(before, store.keys, KeySet(prefix), Sizes(budget.Slots()).Keys, store.refuses)
    modifies store, budget
    ensures budget.Valid()
    ensures budget.Slots() == LongestSuffix(Fitting(prefix + [row], budget.maxBytes), budget.maxBytes)
    ensures Reclaimed(before, store.keys, KeySet(prefix + [row]), Sizes(budget.Slots()).Keys, store.refuses)
    ensures evictions + |budget.Slots()| == |old(budget.Slots())| + 1
  {
    FittingStep(prefix, row, budget.maxBytes);
    if !budget.Fits(row.size) {
      var _ := store.Delete(row.key);
      evictions := 1;
    } else {
      AdmitNewest(Fitting(prefix, budget.maxBytes), Slot(row.key, row.size), budget.maxBytes);
      evictions := AdmitRow(store, budget, row);
    }
  }

  method ReplayAll(store: Store, budget: LRUBudget, sized: seq<Sized>) returns (evictions: nat)
    requires budget.Valid() && budget.Slots() == []
    requires NewKeys(sized)
    modifies store, budget
    ensures budget.Valid()
    ensures budget.Slots() == LongestSuffix(Fitting(sized, budget.maxBytes), budget.maxBytes)
    ensures Reclaimed(old(store.keys), store.keys, KeySet(sized), Sizes(budget.Slots()).Keys, store.refuses)
    ensures evictions + |budget.Slots()| == |sized|
  {
    evictions := 0;
    ghost var done := [];
    for i := 0 to |sized|
      invariant done == sized[..i] && budget.Valid()
      invariant budget.Slots() == LongestSuffix(Fitting(done, budget.maxBytes), budget.maxBytes)
      invariant Reclaimed(old(store.keys), store.keys, KeySet(done), Sizes(budget.Slots()).Keys, store.refuses)
      invariant evictions + |budget.Slots()| == i
    {
      NextRow(sized, i);
      var more := ReplayRow(store, budget, sized[i], done, old(store.keys));
      evictions := evictions + more;
      done := done + [sized[i]];
    }
    assert done == sized;
  }

  /** Replaying the persisted rows oldest first leaves exactly the longest newest
    suffix of the rows that fit on their own; every other sized row of this
    implementation is reclaimed unless its delete fails. */
  method RehydrateBudget(store: Store, budget: LRUBudget, namespace: string, fingerprint: string, rows: seq<Row>)
    returns (evictions: nat)
    requires budget.Valid() && budget.Slots() == []
    requires OwnKeys(rows)
    modifies store, budget
    ensures budget.Valid()
    ensures var sized := Sort(AgeLeq, SizedRows(rows, namespace, fingerprint));
      && budget.Slots() == LongestSuffix(Fitting(sized, budget.maxBytes), budget.maxBytes)
      && Reclaimed(old(store.keys), store.keys, KeySet(sized), Sizes(budget.Slots()).Keys, store.refuses)
      && evictions + |budget.Slots()| == |sized|
  {
    SizedRowsOnePerKey(rows, namespace, fingerprint);
    var sized := Sort(AgeLeq, SizedRows(rows, namespace, fingerprint));
    OneRowNewKeys(sized);
    evictions := ReplayAll(store, budget, sized);
  }

  function StaleKeys(rows: seq<Row>, namespace: string, fingerprint: string): set<Key> {
    set row | row in rows && Stale(row, namespace, fingerprint) :: row.key
  }

  lemma StaleStep(rows: seq<Row>, row: Row, namespace: string, fingerprint: string, refuses: set<Key>)
    requires forall other :: other in rows ==> other.key != row.key
    ensures var was, now := StaleKeys(rows, namespace, fingerprint), StaleKeys(rows + [row], namespace, fingerprint);
      var gone: set<Key> := if Stale(row, namespace, fingerprint) then {row.key} else {};
      now == was + gone && |now - refuses| == |was - refuses| + |gone - refuses|
  {
    var was, now := StaleKeys(rows, namespace, fingerprint), StaleKeys(rows + [row], namespace, fingerprint);
    var gone: set<Key> := if Stale(row, namespace, fingerprint) then {row.key} else {};
    assert row.key !in was;
    assert now == was + gone;
    assert now - refuses == (was - refuses) + (gone - refuses);
  }

  lemma NextOwnKey(rows: seq<Row>, i: nat)
    requires OwnKeys(rows) && i < |rows|
    ensures rows[..i + 1] == rows[..i] + [rows[i]]
    ensures forall other :: other in rows[..i] ==> other.key != rows[i].key
  {
  }

  predicate Purged(before: set<Key>, now: set<Key>, stale: set<Key>, refuses: set<Key>, purged: nat) {
    now == before - (stale - refuses) && purged == |stale - refuses|
  }

  method PurgeRow(store: Store, namespace: string, fingerprint: string, row: Row, purged: nat,
      ghost done: seq<Row>, ghost before: set<Key>)
    returns (more: nat)
    requires forall other :: other in done ==> other.key != row.key
    requires Purged(before, store.keys, StaleKeys(done, namespace, fingerprint), store.refuses, purged)
    modifies store
    ensures Purged(before, store.keys, StaleKeys(done + [row], namespace, fingerprint), store.refuses, more)
  {
    StaleStep(done, row, namespace, fingerprint, store.refuses);
    more := purged;
    if Stale(row, namespace, fingerprint) {
      assert {row.key} - store.refuses == if row.key in store.refuses then {} else {row.key};
      var ok := store.Delete(row.key);
      more := purged + if ok then 1 else 0;
    }
  }

  /** Entries written by another implementation of this function are reclaimed, and
    the result counts those whose delete succeeded. */
  method PurgeStale(store: Store, namespace: string, fingerprint: string, rows: seq<Row>) returns (purged: nat)
    requires OwnKeys(rows)
    modifies store
    ensures Purged(old(store.keys), store.keys, StaleKeys(rows, namespace, fingerprint), store.refuses, purged)
  {
    purged := 0;
    ghost var done := [];
    for i := 0 to |rows|
      invariant done == rows[..i]
      invariant Purged(old(store.keys), store.keys, StaleKeys(done, namespace, fingerprint), store.refuses, purged)
    {
      NextOwnKey(rows, i);
      purged := PurgeRow(store, namespace, fingerprint, rows[i], purged, done, old(store.keys));
      done := done + [rows[i]];
    }
    assert done == rows;
  }

  lemma {:induction false} SizedRowsAreCurrent(rows: seq<Row>, namespace: string, fingerprint: string)
    ensures forall x :: x in SizedRows(rows, namespace, fingerprint) <==>
      (exists row :: row in rows && Current(row, namespace, fingerprint) && row.size.Some?
        && x == Sized(if row.createdAt.Some? then row.createdAt.value else 0, row.key, row.size.value))
  {
    if rows != [] {
      SizedRowsAreCurrent(rows[1..], namespace, fingerprint);
      assert rows == [rows[0]] + rows[1..];
    }
  }

  /** The two chores look at disjoint rows, so one snapshot serves both; and a row
    that is unsized, or of another namespace, is looked at by neither. */
  lemma ChoresAreDisjoint(rows: seq<Row>, namespace: string, fingerprint: string, row: Row)
    requires OwnKeys(rows)
    requires row in rows
    ensures var replayed := KeySet(Sort(AgeLeq, SizedRows(rows, namespace, fingerprint)));
      && !(row.key in replayed && row.key in StaleKeys(rows, namespace, fingerprint))
      && (row.key in replayed <==> Current(row, namespace, fingerprint) && row.size.Some?)
      && (row.namespace != namespace ==> row.key !in StaleKeys(rows, namespace, fingerprint))
  {
    var found, sized := SizedRows(rows, namespace, fingerprint), Sort(AgeLeq, SizedRows(rows, namespace, fingerprint));
    SizedRowsAreCurrent(rows, namespace, fingerprint);
    assert forall x :: x in sized <==> x in multiset(sized);
    assert forall x :: x in found <==> x in multiset(found);
    forall other | other in rows && other.key == row.key ensures other == row {
    }
    if Current(row, namespace, fingerprint) && row.size.Some? {
      var x := Sized(if row.createdAt.Some? then row.createdAt.value else 0, row.key, row.size.value);
      assert x in found;
      assert x in sized;
    }
  }
}
