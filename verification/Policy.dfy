/** The LRU byte budget (src/cachau/policy.py).

  The bookkeeping is a list of slots, least recently used first.  The pure
  functions say what each operation means on that list; class `LRUBudget` keeps
  the source's own fields (an ordered dictionary and a running total) and is
  proved to implement them. */
module Policy {
  type Key = string

  datatype Slot = Slot(key: Key, size: nat)

  function Total(slots: seq<Slot>): nat {
    if slots == [] then 0 else slots[0].size + Total(slots[1..])
  }

  /** The tracked keys with their recorded sizes. */
  function Sizes(slots: seq<Slot>): map<Key, nat> {
    if slots == [] then map[] else Sizes(slots[1..])[slots[0].key := slots[0].size]
  }

  /** No key has two slots. */
  predicate Distinct(slots: seq<Slot>) {
    slots == [] || (slots[0].key !in Sizes(slots[1..]) && Distinct(slots[1..]))
  }

  function Forget(slots: seq<Slot>, key: Key): seq<Slot> {
    if slots == [] then []
    else if slots[0].key == key then Forget(slots[1..], key)
    else [slots[0]] + Forget(slots[1..], key)
  }

  function Touch(slots: seq<Slot>, key: Key): seq<Slot> {
    if key in Sizes(slots) then Forget(slots, key) + [Slot(key, Sizes(slots)[key])] else slots
  }

  /** How many of the oldest slots make way for `size` more bytes. */
  function Overflow(slots: seq<Slot>, size: nat, maxBytes: nat): (n: nat)
    ensures n <= |slots|
  {
    if slots != [] && Total(slots) + size > maxBytes then 1 + Overflow(slots[1..], size, maxBytes) else 0
  }

  /** The slots `admit(key, size)` evicts: key's own old slot is not one of them. */
  function Evicted(slots: seq<Slot>, key: Key, size: nat, maxBytes: nat): seq<Slot> {
    var rest := Forget(slots, key);
    rest[..Overflow(rest, size, maxBytes)]
  }

  /** The bookkeeping after `admit(key, size)`. */
  function Admit(slots: seq<Slot>, key: Key, size: nat, maxBytes: nat): seq<Slot> {
    var rest := Forget(slots, key);
    rest[Overflow(rest, size, maxBytes)..] + [Slot(key, size)]
  }

  // ---------------------------------------------------------------- list facts

  lemma {:induction false} ConcatFacts(a: seq<Slot>, b: seq<Slot>)
    ensures Total(a + b) == Total(a) + Total(b)
    ensures Sizes(a + b) == Sizes(b) + Sizes(a)
    ensures Distinct(a + b) <==> Distinct(a) && Distinct(b) && Sizes(a).Keys !! Sizes(b).Keys
  {
    if a == [] {
      assert a + b == b;
    } else {
      assert (a + b)[1..] == a[1..] + b;
      ConcatFacts(a[1..], b);
    }
  }

  lemma {:induction false} ForgetFacts(slots: seq<Slot>, key: Key)
    ensures Sizes(Forget(slots, key)) == Sizes(slots) - {key}
    ensures key !in Sizes(slots) ==> Forget(slots, key) == slots
    ensures Distinct(slots) ==> Distinct(Forget(slots, key))
    ensures Distinct(slots) ==>
      Total(Forget(slots, key)) == Total(slots) - (if key in Sizes(slots) then Sizes(slots)[key] else 0)
  {
    if slots != [] {
      ForgetFacts(slots[1..], key);
    }
  }

  lemma {:induction false} ForgetTwice(slots: seq<Slot>, key: Key)
    ensures Forget(Forget(slots, key), key) == Forget(slots, key)
  {
    if slots != [] {
      ForgetTwice(slots[1..], key);
      if slots[0].key != key {
        assert Forget(slots, key)[1..] == Forget(slots[1..], key);
      }
    }
  }

  lemma TouchFacts(slots: seq<Slot>, key: Key)
    requires Distinct(slots)
    ensures Distinct(Touch(slots, key))
    ensures Total(Touch(slots, key)) == Total(slots)
    ensures Sizes(Touch(slots, key)) == Sizes(slots)
  {
    if key in Sizes(slots) {
      ForgetFacts(slots, key);
      ConcatFacts(Forget(slots, key), [Slot(key, Sizes(slots)[key])]);
    }
  }

  // ------------------------------------------------- what `admit` does, exactly

  /** The slots that make way are the shortest prefix of the LRU order that makes
    room: dropping any fewer does not fit, and what is kept fits unless nothing
    is kept. */
  lemma {:induction false} OverflowIsShortest(slots: seq<Slot>, size: nat, maxBytes: nat)
    ensures var n := Overflow(slots, size, maxBytes);
      && (Total(slots[n..]) + size <= maxBytes || n == |slots|)
      && (forall m :: 0 <= m < n ==> Total(slots[m..]) + size > maxBytes)
  {
    var n := Overflow(slots, size, maxBytes);
    assert slots[0..] == slots;
    if slots != [] && Total(slots) + size > maxBytes {
      OverflowIsShortest(slots[1..], size, maxBytes);
      assert slots[1..][n - 1..] == slots[n..];
      forall m | 0 <= m < n ensures Total(slots[m..]) + size > maxBytes {
        if m > 0 {
          assert slots[1..][m - 1..] == slots[m..];
        }
      }
    }
  }

  lemma AppendFacts(slots: seq<Slot>, slot: Slot)
    requires slot.key !in Sizes(slots)
    ensures Sizes(slots + [slot]) == Sizes(slots)[slot.key := slot.size]
    ensures Total(slots + [slot]) == Total(slots) + slot.size
    ensures Distinct(slots) ==> Distinct(slots + [slot])
  {
    ConcatFacts(slots, [slot]);
    assert Sizes([slot]) == map[slot.key := slot.size];
  }

  lemma PartsFacts(gone: seq<Slot>, kept: seq<Slot>)
    requires Distinct(gone + kept)
    ensures Distinct(gone) && Distinct(kept)
    ensures Sizes(gone).Keys <= Sizes(gone + kept).Keys
    ensures Sizes(kept) == Sizes(gone + kept) - Sizes(gone).Keys
  {
    ConcatFacts(gone, kept);
    var all := Sizes(kept) + Sizes(gone);
    assert Sizes(kept) == all - Sizes(gone).Keys;
  }

  /** Splitting a list into what goes and what stays. */
  lemma SplitFacts(rest: seq<Slot>, n: nat)
    requires Distinct(rest) && n <= |rest|
    ensures Distinct(rest[n..]) && Distinct(rest[..n])
    ensures Sizes(rest[..n]).Keys <= Sizes(rest).Keys
    ensures Sizes(rest[n..]) == Sizes(rest) - Sizes(rest[..n]).Keys
  {
    assert rest == rest[..n] + rest[n..];
    PartsFacts(rest[..n], rest[n..]);
  }

  lemma OverwriteForgotten(m: map<Key, nat>, gone: set<Key>, key: Key, size: nat)
    ensures (m - {key} - gone)[key := size] == (m - gone)[key := size]
  {
  }

  /** `admit` tracks the key with its new size, tracks every other key it did not
    evict with the size it had, and is within budget when the size fits alone. */
  lemma AdmitFacts(slots: seq<Slot>, key: Key, size: nat, maxBytes: nat)
    requires Distinct(slots)
    ensures var after, gone := Admit(slots, key, size, maxBytes), Evicted(slots, key, size, maxBytes);
      && Distinct(after) && Distinct(gone)
      && Sizes(after) == (Sizes(slots) - Sizes(gone).Keys)[key := size]
      && Sizes(gone).Keys <= Sizes(slots).Keys - {key}
      && (size <= maxBytes ==> Total(after) <= maxBytes)
  {
    var rest := Forget(slots, key);
    ForgetFacts(slots, key);
    OverflowIsShortest(rest, size, maxBytes);
    var n := Overflow(rest, size, maxBytes);
    SplitFacts(rest, n);
    AppendFacts(rest[n..], Slot(key, size));
    OverwriteForgotten(Sizes(slots), Sizes(rest[..n]).Keys, key, size);
  }

  // --------------------------------------------------- whole runs of operations

  datatype Op = AdmitOp(key: Key, size: nat) | TouchOp(key: Key) | ForgetOp(key: Key)

  function Apply(slots: seq<Slot>, op: Op, maxBytes: nat): seq<Slot> {
    match op
    case AdmitOp(key, size) => Admit(slots, key, size, maxBytes)
    case TouchOp(key) => Touch(slots, key)
    case ForgetOp(key) => Forget(slots, key)
  }

  /** The bookkeeping a fresh budget holds after a run of operations. */
  function Run(ops: seq<Op>, maxBytes: nat): seq<Slot> {
    if ops == [] then [] else Apply(Run(ops[..|ops| - 1], maxBytes), ops[|ops| - 1], maxBytes)
  }

  /** The position (from 1) of the last `admit` or `touch` of a key in a run. */
  function LastUse(ops: seq<Op>, key: Key): (n: nat)
    ensures n <= |ops|
  {
    if ops == [] then 0
    else if !ops[|ops| - 1].ForgetOp? && ops[|ops| - 1].key == key then |ops|
    else LastUse(ops[..|ops| - 1], key)
  }

  /** The size given by the last `admit` of a key. */
  function LastSize(ops: seq<Op>, key: Key): nat {
    if ops == [] then 0
    else if ops[|ops| - 1].AdmitOp? && ops[|ops| - 1].key == key then ops[|ops| - 1].size
    else LastSize(ops[..|ops| - 1], key)
  }

  predicate After(n: nat, slots: seq<Slot>, ops: seq<Op>) {
    forall key :: key in Sizes(slots) ==> n < LastUse(ops, key)
  }

  /** Every slot was last used before every slot after it. */
  predicate ByRecency(slots: seq<Slot>, ops: seq<Op>) {
    slots == [] || (After(LastUse(ops, slots[0].key), slots[1..], ops) && ByRecency(slots[1..], ops))
  }

  predicate Precedes(a: seq<Slot>, b: seq<Slot>, ops: seq<Op>) {
    forall key :: key in Sizes(a) ==> After(LastUse(ops, key), b, ops)
  }

  lemma AfterConcat(n: nat, a: seq<Slot>, b: seq<Slot>, ops: seq<Op>)
    ensures After(n, a + b, ops) <==> After(n, a, ops) && After(n, b, ops)
  {
    ConcatFacts(a, b);
    assert forall key :: key in Sizes(a + b) <==> key in Sizes(a) || key in Sizes(b);
  }

  lemma PrecedesFirst(a: seq<Slot>, b: seq<Slot>, ops: seq<Op>)
    requires a != []
    ensures Precedes(a, b, ops) <==> After(LastUse(ops, a[0].key), b, ops) && Precedes(a[1..], b, ops)
  {
    assert forall key :: key in Sizes(a) <==> key == a[0].key || key in Sizes(a[1..]);
  }

  lemma {:induction false} RecencyConcat(a: seq<Slot>, b: seq<Slot>, ops: seq<Op>)
    ensures ByRecency(a + b, ops) <==> ByRecency(a, ops) && ByRecency(b, ops) && Precedes(a, b, ops)
  {
    if a == [] {
      assert a + b == b;
    } else {
      assert (a + b)[1..] == a[1..] + b;
      RecencyConcat(a[1..], b, ops);
      AfterConcat(LastUse(ops, a[0].key), a[1..], b, ops);
      PrecedesFirst(a, b, ops);
    }
  }

  lemma {:induction false} ForgetKeepsRecency(slots: seq<Slot>, key: Key, ops: seq<Op>)
    requires ByRecency(slots, ops)
    ensures ByRecency(Forget(slots, key), ops)
  {
    if slots != [] {
      ForgetKeepsRecency(slots[1..], key, ops);
      ForgetFacts(slots[1..], key);
      if slots[0].key != key {
        assert Forget(slots, key)[1..] == Forget(slots[1..], key);
      }
    }
  }

  /** Recency only depends on the last uses of the tracked keys. */
  lemma {:induction false} SameUsesSameRecency(slots: seq<Slot>, ops: seq<Op>, more: seq<Op>)
    requires ByRecency(slots, ops)
    requires forall key :: key in Sizes(slots) ==> LastUse(more, key) == LastUse(ops, key)
    ensures ByRecency(slots, more)
  {
    if slots != [] {
      SameUsesSameRecency(slots[1..], ops, more);
    }
  }

  lemma LaterUse(before: seq<Op>, op: Op)
    requires !op.ForgetOp?
    ensures LastUse(before + [op], op.key) == |before| + 1
    ensures forall key :: key != op.key ==> LastUse(before + [op], key) == LastUse(before, key)
  {
    assert (before + [op])[..|before|] == before;
  }

  lemma OneByRecency(slot: Slot, ops: seq<Op>)
    ensures ByRecency([slot], ops)
  {
    var rest := [slot][1..];
    assert rest == [];
    assert ByRecency(rest, ops);
    assert After(LastUse(ops, slot.key), rest, ops);
  }

  lemma PrecedesUsed(rest: seq<Slot>, slot: Slot, before: seq<Op>, op: Op)
    requires slot.key !in Sizes(rest)
    requires !op.ForgetOp? && op.key == slot.key
    ensures Precedes(rest, [slot], before + [op])
  {
    var ops := before + [op];
    LaterUse(before, op);
    assert Sizes([slot]).Keys == {slot.key};
    forall key | key in Sizes(rest) ensures After(LastUse(ops, key), [slot], ops) {
      assert LastUse(ops, key) <= |before|;
    }
  }

  /** The key just used moves behind every other one. */
  lemma UsedGoesLast(rest: seq<Slot>, slot: Slot, before: seq<Op>, op: Op)
    requires ByRecency(rest, before)
    requires slot.key !in Sizes(rest)
    requires !op.ForgetOp? && op.key == slot.key
    ensures ByRecency(rest + [slot], before + [op])
  {
    var ops := before + [op];
    LaterUse(before, op);
    SameUsesSameRecency(rest, before, ops);
    OneByRecency(slot, ops);
    PrecedesUsed(rest, slot, before, op);
    RecencyConcat(rest, [slot], ops);
  }

  lemma AdmitByRecency(was: seq<Slot>, before: seq<Op>, key: Key, size: nat, maxBytes: nat)
    requires ByRecency(was, before)
    ensures ByRecency(Admit(was, key, size, maxBytes), before + [AdmitOp(key, size)])
  {
    var rest := Forget(was, key);
    var n := Overflow(rest, size, maxBytes);
    ForgetFacts(was, key);
    ForgetKeepsRecency(was, key, before);
    assert rest == rest[..n] + rest[n..];
    RecencyConcat(rest[..n], rest[n..], before);
    ConcatFacts(rest[..n], rest[n..]);
    UsedGoesLast(rest[n..], Slot(key, size), before, AdmitOp(key, size));
  }

  lemma TouchByRecency(was: seq<Slot>, before: seq<Op>, key: Key)
    requires ByRecency(was, before)
    ensures ByRecency(Touch(was, key), before + [TouchOp(key)])
  {
    LaterUse(before, TouchOp(key));
    if key in Sizes(was) {
      ForgetFacts(was, key);
      ForgetKeepsRecency(was, key, before);
      UsedGoesLast(Forget(was, key), Slot(key, Sizes(was)[key]), before, TouchOp(key));
    } else {
      SameUsesSameRecency(was, before, before + [TouchOp(key)]);
    }
  }

  lemma ForgetByRecency(was: seq<Slot>, before: seq<Op>, key: Key)
    requires ByRecency(was, before)
    ensures ByRecency(Forget(was, key), before + [ForgetOp(key)])
  {
    assert (before + [ForgetOp(key)])[..|before|] == before;
    ForgetKeepsRecency(was, key, before);
    SameUsesSameRecency(Forget(was, key), before, before + [ForgetOp(key)]);
  }

  /** Over any run of `admit`, `touch` and `forget`, the order is the recency of
    each key's last `admit` or `touch`. */
  lemma {:induction false} RunIsByRecency(ops: seq<Op>, maxBytes: nat)
    ensures Distinct(Run(ops, maxBytes))
    ensures ByRecency(Run(ops, maxBytes), ops)
  {
    if ops != [] {
      var before, op := ops[..|ops| - 1], ops[|ops| - 1];
      var was := Run(before, maxBytes);
      assert ops == before + [op];
      RunIsByRecency(before, maxBytes);
      match op {
        case AdmitOp(key, size) =>
          AdmitFacts(was, key, size, maxBytes);
          AdmitByRecency(was, before, key, size, maxBytes);
        case TouchOp(key) =>
          TouchFacts(was, key);
          TouchByRecency(was, before, key);
        case ForgetOp(key) =>
          ForgetFacts(was, key);
          ForgetByRecency(was, before, key);
      }
    }
  }

  /** Over any run, every recorded size is the one last admitted, and the bytes
    tracked never exceed the budget when each admitted size fits on its own. */
  lemma {:induction false} RunIsBounded(ops: seq<Op>, maxBytes: nat)
    requires forall i :: 0 <= i < |ops| && ops[i].AdmitOp? ==> ops[i].size <= maxBytes
    ensures Total(Run(ops, maxBytes)) <= maxBytes
    ensures forall key :: key in Sizes(Run(ops, maxBytes)) ==> Sizes(Run(ops, maxBytes))[key] == LastSize(ops, key)
  {
    if ops != [] {
      var before, op := ops[..|ops| - 1], ops[|ops| - 1];
      RunIsBounded(before, maxBytes);
      RunIsByRecency(before, maxBytes);
      var was := Run(before, maxBytes);
      match op {
        case AdmitOp(key, size) => AdmitFacts(was, key, size, maxBytes);
        case TouchOp(key) => TouchFacts(was, key);
        case ForgetOp(key) => ForgetFacts(was, key);
      }
    }
  }

  // ------------------------------------------------------ the imperative budget

  function Without(order: seq<Key>, key: Key): seq<Key> {
    if order == [] then []
    else if order[0] == key then Without(order[1..], key)
    else [order[0]] + Without(order[1..], key)
  }

  /** The slot list an insertion-ordered dictionary stands for. */
  function Zip(order: seq<Key>, sizes: map<Key, nat>): seq<Slot>
    requires forall key :: key in order ==> key in sizes
  {
    if order == [] then [] else [Slot(order[0], sizes[order[0]])] + Zip(order[1..], sizes)
  }

  lemma {:induction false} ZipFacts(order: seq<Key>, sizes: map<Key, nat>)
    requires forall key :: key in order ==> key in sizes
    ensures |Zip(order, sizes)| == |order|
    ensures Sizes(Zip(order, sizes)).Keys == set key | key in order
    ensures forall key :: key in order ==> Sizes(Zip(order, sizes))[key] == sizes[key]
  {
    if order != [] {
      ZipFacts(order[1..], sizes);
      assert order == [order[0]] + order[1..];
    }
  }

  lemma {:induction false} ZipWithout(order: seq<Key>, sizes: map<Key, nat>, key: Key)
    requires forall k :: k in order ==> k in sizes
    ensures forall k :: k in Without(order, key) <==> k in order && k != key
    ensures Zip(Without(order, key), sizes - {key}) == Forget(Zip(order, sizes), key)
    ensures Zip(Without(order, key), sizes) == Forget(Zip(order, sizes), key)
  {
    if order != [] {
      ZipWithout(order[1..], sizes, key);
      assert order == [order[0]] + order[1..];
      assert Zip(order, sizes)[1..] == Zip(order[1..], sizes);
    }
  }

  lemma {:induction false} ZipAppend(order: seq<Key>, sizes: map<Key, nat>, key: Key, size: nat)
    requires forall k :: k in order ==> k in sizes
    requires key !in order
    ensures Zip(order + [key], sizes[key := size]) == Zip(order, sizes) + [Slot(key, size)]
  {
    if order == [] {
      assert Zip([key], sizes[key := size]) == [Slot(key, size)];
    } else {
      assert (order + [key])[1..] == order[1..] + [key];
      ZipAppend(order[1..], sizes, key, size);
    }
  }

  lemma {:induction false} ZipShrink(order: seq<Key>, sizes: map<Key, nat>, key: Key)
    requires forall k :: k in order ==> k in sizes
    requires key !in order
    ensures Zip(order, sizes - {key}) == Zip(order, sizes)
  {
    if order != [] {
      ZipShrink(order[1..], sizes, key);
    }
  }

  function KeysOf(slots: seq<Slot>): seq<Key> {
    if slots == [] then [] else [slots[0].key] + KeysOf(slots[1..])
  }

  lemma {:induction false} KeysOfAppend(slots: seq<Slot>, slot: Slot)
    ensures KeysOf(slots + [slot]) == KeysOf(slots) + [slot.key]
  {
    if slots == [] {
      assert KeysOf([slot]) == [slot.key];
    } else {
      assert (slots + [slot])[1..] == slots[1..] + [slot];
      KeysOfAppend(slots[1..], slot);
    }
  }

  /** One turn of the eviction loop, seen on the list it started from. */
  lemma EvictStep(rest: seq<Slot>, n: nat, key: Key, size: nat, maxBytes: nat)
    requires n < |rest| && key !in Sizes(rest[n..]) && Total(rest[n..]) + size > maxBytes
    ensures rest[n..] != [] && rest[n..][0] == rest[n] && rest[n..][1..] == rest[n + 1..]
    ensures KeysOf(rest[..n + 1]) == KeysOf(rest[..n]) + [rest[n].key]
    ensures Overflow(rest[n..], size, maxBytes) == 1 + Overflow(rest[n + 1..], size, maxBytes)
    ensures key !in Sizes(rest[n + 1..])
  {
    assert rest[n..][1..] == rest[n + 1..];
    KeysOfAppend(rest[..n], rest[n]);
    assert rest[..n + 1] == rest[..n] + [rest[n]];
  }

  class LRUBudget {
    const maxBytes: nat
    var order: seq<Key>
    var sizes: map<Key, nat>
    var total: int

    ghost predicate Valid()
      reads this
    {
      && sizes.Keys == (set key | key in order)
      && Distinct(Slots())
      && total == Total(Slots())
    }

    ghost function Slots(): seq<Slot>
      reads this
    {
      if sizes.Keys == (set key | key in order) then Zip(order, sizes) else []
    }

    constructor (maxBytes: nat)
      ensures Valid() && Slots() == [] && this.maxBytes == maxBytes
    {
      this.maxBytes := maxBytes;
      order, sizes, total := [], map[], 0;
    }

    predicate Fits(size: nat) {
      size <= maxBytes
    }

    /** Refresh a key's recency on a hit; an untracked key changes nothing. */
    method TouchKey(key: Key)
      requires Valid()
      modifies this
      ensures Valid() && Slots() == Touch(old(Slots()), key)
    {
      ghost var was := Slots();
      ZipFacts(order, sizes);
      TouchFacts(was, key);
      if key in sizes {
        ZipWithout(order, sizes, key);
        ZipAppend(Without(order, key), sizes, key, sizes[key]);
        assert sizes[key := sizes[key]] == sizes;
        order := Without(order, key) + [key];
      }
    }

    method ForgetKey(key: Key)
      requires Valid()
      modifies this
      ensures Valid() && Slots() == Forget(old(Slots()), key)
    {
      ghost var was := Slots();
      ZipFacts(order, sizes);
      ForgetFacts(was, key);
      if key in sizes {
        ZipWithout(order, sizes, key);
        total := total - sizes[key];
        order := Without(order, key);
        sizes := sizes - {key};
      }
    }

    /** Drop the least recently used slot. */
    method PopOldest() returns (oldest: Key)
      requires Valid() && Slots() != []
      modifies this
      ensures Valid() && Slots() == old(Slots())[1..] && oldest == old(Slots())[0].key
      ensures total == old(total) - old(Slots())[0].size && |order| < |old(order)|
    {
      ZipFacts(order, sizes);
      oldest := order[0];
      ZipFacts(order[1..], sizes);
      ZipShrink(order[1..], sizes, oldest);
      assert order == [oldest] + order[1..];
      total := total - sizes[oldest];
      sizes := sizes - {oldest};
      order := order[1..];
    }

    method Append(key: Key, size: nat)
      requires Valid() && key !in Sizes(Slots())
      modifies this
      ensures Valid() && Slots() == old(Slots()) + [Slot(key, size)]
    {
      ZipFacts(order, sizes);
      ZipAppend(order, sizes, key, size);
      AppendFacts(Slots(), Slot(key, size));
      sizes := sizes[key := size];
      order := order + [key];
      total := total + size;
    }

    /** Register a key and return the keys that must be evicted, oldest first. */
    method AdmitKey(key: Key, size: nat) returns (evicted: seq<Key>)
      requires Valid()
      modifies this
      ensures Valid() && Slots() == Admit(old(Slots()), key, size, maxBytes)
      ensures evicted == KeysOf(Evicted(old(Slots()), key, size, maxBytes))
    {
      ForgetKey(key);
      ghost var rest := Slots();
      ghost var drop := Overflow(rest, size, maxBytes);
      ForgetFacts(old(Slots()), key);
      evicted := [];
      ghost var n := 0;
      while total + size > maxBytes && |order| > 0
        invariant n <= drop <= |rest| && Valid() && Slots() == rest[n..]
        invariant evicted == KeysOf(rest[..n])
        invariant Overflow(rest[n..], size, maxBytes) == drop - n
        invariant key !in Sizes(rest[n..])
        decreases |order|
      {
        ZipFacts(order, sizes);
        EvictStep(rest, n, key, size, maxBytes);
        var oldest := PopOldest();
        evicted := evicted + [oldest];
        n := n + 1;
      }
      ZipFacts(order, sizes);
      assert n == drop;
      Append(key, size);
    }

    method Reset()
      modifies this
      ensures Valid() && Slots() == []
    {
      order, sizes, total := [], map[], 0;
    }
  }
}
