/** The bounded, insertion-ordered key sets a cached function keeps beside its store
  (src/cachau/decorator.py): reason markers, eviction markers, and the ledger of
  evicted keys whose delete failed. */
module Ledgers {
  import opened Policy

  const MARKER_CAP := 4096
  const LEDGER_CAP := 4096
  const BATCH := 8

  /** Make the key the newest; beyond the cap the oldest are dropped. */
  function Remember(keys: seq<Key>, key: Key, cap: nat): seq<Key> {
    var longer := Without(keys, key) + [key];
    if |longer| <= cap then longer else longer[|longer| - cap..]
  }

  /** The deletes one commit retries: the oldest few of the other keys. */
  function Batch(ledger: seq<Key>, current: Key): seq<Key> {
    var others := Without(ledger, current);
    if |others| <= BATCH then others else others[..BATCH]
  }

  predicate Once(keys: seq<Key>) {
    keys == [] || (keys[0] !in keys[1..] && Once(keys[1..]))
  }

  lemma {:induction false} WithoutFacts(keys: seq<Key>, key: Key)
    ensures forall k :: k in Without(keys, key) <==> k in keys && k != key
    ensures key !in keys ==> Without(keys, key) == keys
    ensures Once(keys) ==> Once(Without(keys, key))
    ensures Once(keys) ==> |Without(keys, key)| == |keys| - if key in keys then 1 else 0
  {
    if keys != [] {
      WithoutFacts(keys[1..], key);
      assert keys == [keys[0]] + keys[1..];
    }
  }

  lemma {:induction false} OnceAppend(keys: seq<Key>, key: Key)
    ensures Once(keys + [key]) <==> Once(keys) && key !in keys
  {
    if keys == [] {
      assert [key][1..] == [];
    } else {
      assert (keys + [key])[1..] == keys[1..] + [key];
      OnceAppend(keys[1..], key);
    }
  }

  lemma {:induction false} OnceSuffix(keys: seq<Key>, n: nat)
    requires n <= |keys| && Once(keys)
    ensures Once(keys[n..])
  {
    if n > 0 {
      OnceSuffix(keys[1..], n - 1);
      assert keys[1..][n - 1..] == keys[n..];
    }
  }

  lemma {:induction false} OncePrefix(keys: seq<Key>, n: nat)
    requires n <= |keys| && Once(keys)
    ensures Once(keys[..n])
  {
    if n > 0 {
      OncePrefix(keys[1..], n - 1);
      assert keys[..n][1..] == keys[1..][..n - 1];
    }
  }

  lemma {:induction false} OnceNext(keys: seq<Key>, i: nat)
    requires Once(keys) && i < |keys|
    ensures keys[i] !in keys[..i] && keys[..i + 1] == keys[..i] + [keys[i]]
  {
    if i > 0 {
      OnceNext(keys[1..], i - 1);
      assert keys[..i] == [keys[0]] + keys[1..][..i - 1];
    }
  }

  /** Remembering adds the key, keeps every other unless the cap is reached, and adds
    no other. */
  lemma RememberFacts(keys: seq<Key>, key: Key, cap: nat)
    requires cap > 0 && Once(keys)
    ensures key in Remember(keys, key, cap) && Once(Remember(keys, key, cap))
    ensures forall k :: k in Remember(keys, key, cap) ==> k in keys || k == key
    ensures |Without(keys, key)| < cap ==> forall k :: k in keys ==> k in Remember(keys, key, cap)
    ensures |keys| <= cap ==> |Remember(keys, key, cap)| <= cap
  {
    var longer := Without(keys, key) + [key];
    WithoutFacts(keys, key);
    OnceAppend(Without(keys, key), key);
    if |longer| > cap {
      OnceSuffix(longer, |longer| - cap);
      assert longer[|longer| - cap..][cap - 1] == key;
    }
  }

  /** The batch is what the ledger holds of other keys, up to its bound, once each. */
  lemma BatchFacts(ledger: seq<Key>, current: Key)
    requires Once(ledger)
    ensures Once(Batch(ledger, current))
    ensures forall k :: k in Batch(ledger, current) ==> k in ledger && k != current
    ensures |Batch(ledger, current)| == if |Without(ledger, current)| < BATCH then |Without(ledger, current)| else BATCH
  {
    WithoutFacts(ledger, current);
    if |Without(ledger, current)| > BATCH {
      OncePrefix(Without(ledger, current), BATCH);
    }
  }

  /** The ledger and the marker sets hold 4096 keys each. */
  lemma FourThousandAreKept(keys: seq<Key>, key: Key)
    requires Once(keys)
    ensures |Without(keys, key)| < 4096 ==>
      forall k :: k in keys ==> k in Remember(keys, key, LEDGER_CAP) && k in Remember(keys, key, MARKER_CAP)
    ensures |Remember(keys, key, LEDGER_CAP)| <= 4096 && |Remember(keys, key, MARKER_CAP)| <= 4096
  {
    RememberFacts(keys, key, LEDGER_CAP);
    RememberFacts(keys, key, MARKER_CAP);
  }

  /** Several keys remembered in turn. */
  function RememberAll(keys: seq<Key>, more: seq<Key>, cap: nat): seq<Key> {
    if more == [] then keys
    else Remember(RememberAll(keys, more[..|more| - 1], cap), more[|more| - 1], cap)
  }

  lemma {:induction false} RememberAllOnce(keys: seq<Key>, more: seq<Key>, cap: nat)
    requires cap > 0 && Once(keys)
    ensures Once(RememberAll(keys, more, cap))
    decreases |more|
  {
    if more != [] {
      RememberAllOnce(keys, more[..|more| - 1], cap);
      RememberFacts(RememberAll(keys, more[..|more| - 1], cap), more[|more| - 1], cap);
    }
  }

  lemma RememberOne(keys: seq<Key>, key: Key, cap: nat, k: Key)
    requires Once(keys) && |keys| < cap
    ensures k in Remember(keys, key, cap) <==> k in keys || k == key
    ensures |Remember(keys, key, cap)| <= |keys| + 1
  {
    WithoutFacts(keys, key);
    RememberFacts(keys, key, cap);
  }

  /** All of them are remembered while there is room for all. */
  lemma {:induction false} AllRemembered(keys: seq<Key>, more: seq<Key>, cap: nat, k: Key)
    requires Once(keys) && |keys| + |more| <= cap
    ensures k in RememberAll(keys, more, cap) <==> k in keys || k in more
    ensures |RememberAll(keys, more, cap)| <= |keys| + |more|
    decreases |more|
  {
    if more != [] {
      var before, last := more[..|more| - 1], more[|more| - 1];
      AllRemembered(keys, before, cap, k);
      RememberAllOnce(keys, before, cap);
      RememberOne(RememberAll(keys, before, cap), last, cap, k);
      InLonger(before, last, k);
      assert more == before + [last];
    }
  }

  lemma InLonger(before: seq<Key>, last: Key, k: Key)
    ensures k in before + [last] <==> k in before || k == last
  {
  }

  // ------------------------------------------------------------------ which are kept

  /** One key comes before another. */
  ghost predicate Before(keys: seq<Key>, a: Key, b: Key) {
    exists i, j :: 0 <= i < j < |keys| && keys[i] == a && keys[j] == b
  }

  lemma {:induction false} WithoutConcat(a: seq<Key>, b: seq<Key>, key: Key)
    ensures Without(a + b, key) == Without(a, key) + Without(b, key)
  {
    if a == [] {
      assert a + b == b;
    } else {
      assert (a + b)[1..] == a[1..] + b;
      WithoutConcat(a[1..], b, key);
    }
  }

  /** Taking one key out leaves the others in their order. */
  lemma WithoutKeepsOrder(keys: seq<Key>, key: Key, a: Key, b: Key)
    requires Before(keys, a, b) && a != key && b != key
    ensures Before(Without(keys, key), a, b)
  {
    var i, j :| 0 <= i < j < |keys| && keys[i] == a && keys[j] == b;
    var p, q, r := keys[..i], keys[i + 1..j], keys[j + 1..];
    assert keys == p + ([a] + (q + ([b] + r)));
    WithoutConcat(p, [a] + (q + ([b] + r)), key);
    WithoutConcat([a], q + ([b] + r), key);
    WithoutConcat(q, [b] + r, key);
    WithoutConcat([b], r, key);
    assert Without([a], key) == [a] && Without([b], key) == [b];
    var w, x, y := Without(p, key), Without(q, key), Without(r, key);
    var all := w + ([a] + (x + ([b] + y)));
    assert Without(keys, key) == all;
    assert all[|w|] == a && all[|w| + 1 + |x|] == b;
  }

  lemma {:induction false} OnceAt(keys: seq<Key>, i: nat, j: nat)
    requires Once(keys) && i < |keys| && j < |keys| && keys[i] == keys[j]
    ensures i == j
  {
    assert forall k :: 1 <= k < |keys| ==> keys[k] == keys[1..][k - 1] && keys[k] in keys[1..];
    if i > 0 && j > 0 {
      OnceAt(keys[1..], i - 1, j - 1);
    }
  }

  lemma SuffixKeepsNewer(keys: seq<Key>, n: nat, a: Key, b: Key)
    requires Once(keys) && n <= |keys| && Before(keys, a, b) && a in keys[n..]
    ensures b in keys[n..] && Before(keys[n..], a, b)
  {
    var i, j :| 0 <= i < j < |keys| && keys[i] == a && keys[j] == b;
    var k :| 0 <= k < |keys[n..]| && keys[n..][k] == a;
    OnceAt(keys, i, n + k);
    assert keys[n..][j - n] == b && keys[n..][i - n] == a;
  }

  lemma PrefixKeepsOlder(keys: seq<Key>, n: nat, a: Key, b: Key)
    requires Once(keys) && n <= |keys| && Before(keys, a, b) && b in keys[..n]
    ensures a in keys[..n] && Before(keys[..n], a, b)
  {
    var i, j :| 0 <= i < j < |keys| && keys[i] == a && keys[j] == b;
    var k :| 0 <= k < |keys[..n]| && keys[..n][k] == b;
    OnceAt(keys, j, k);
    assert keys[..n][i] == a && keys[..n][j] == b;
  }

  /** What is remembered last is the newest, no more than the cap are kept, the oldest
    go first and the others stay in their order. */
  lemma RememberKeepsNewest(keys: seq<Key>, key: Key, cap: nat, a: Key, b: Key)
    requires cap > 0 && Once(keys)
    ensures var r := Remember(keys, key, cap);
      && 0 < |r| <= cap && r[|r| - 1] == key
      && (Before(keys, a, b) && a != key && b != key && a in r ==> Before(r, a, b))
  {
    var longer := Without(keys, key) + [key];
    var r := Remember(keys, key, cap);
    WithoutFacts(keys, key);
    OnceAppend(Without(keys, key), key);
    if Before(keys, a, b) && a != key && b != key && a in r {
      WithoutKeepsOrder(keys, key, a, b);
      var i, j :| 0 <= i < j < |Without(keys, key)| && Without(keys, key)[i] == a && Without(keys, key)[j] == b;
      assert longer[i] == a && longer[j] == b;
      if |longer| > cap {
        SuffixKeepsNewer(longer, |longer| - cap, a, b);
      }
    }
  }

  /** The batch is of the oldest, in their order, and of eight at most. */
  lemma BatchIsOldest(ledger: seq<Key>, current: Key, a: Key, b: Key)
    requires Once(ledger)
    ensures |Batch(ledger, current)| <= 8
    ensures Before(ledger, a, b) && a != current && b in Batch(ledger, current) ==> Before(Batch(ledger, current), a, b)
  {
    var others := Without(ledger, current);
    WithoutFacts(ledger, current);
    if Before(ledger, a, b) && a != current && b in Batch(ledger, current) {
      BatchFacts(ledger, current);
      WithoutKeepsOrder(ledger, current, a, b);
      if |others| > BATCH {
        PrefixKeepsOlder(others, BATCH, a, b);
      }
    }
  }

  /** The source's loop: append, then pop from the front while over the cap. */
  method Note(keys: seq<Key>, key: Key, cap: nat) returns (r: seq<Key>)
    ensures r == Remember(keys, key, cap)
  {
    r := Without(keys, key) + [key];
    ghost var longer := r;
    while |r| > cap
      invariant |r| <= |longer| && r == longer[|longer| - |r|..]
      invariant if |longer| <= cap then r == longer else |r| >= cap
    {
      r := r[1..];
    }
  }

  lemma {:induction false} KeysOfSizes(slots: seq<Slot>, key: Key)
    ensures key in KeysOf(slots) <==> key in Sizes(slots)
  {
    if slots != [] {
      KeysOfSizes(slots[1..], key);
    }
  }

  // --------------------------------------------------------- bytes of stored keys

  /** The bytes of a list of keys, given the sizes of the stored ones. */
  function Bytes(sizes: map<Key, nat>, keys: seq<Key>): nat {
    if keys == [] then 0 else (if keys[0] in sizes then sizes[keys[0]] else 0) + Bytes(sizes, keys[1..])
  }

  /** Keys tracked with their sizes have no more bytes than the budget counts. */
  lemma {:induction false} TrackedBytes(sizes: map<Key, nat>, budget: seq<Slot>, keys: seq<Key>)
    requires Once(keys) && Distinct(budget)
    requires forall key :: key in keys && key in sizes ==> key in Sizes(budget) && Sizes(budget)[key] == sizes[key]
    decreases keys
    ensures Bytes(sizes, keys) <= Total(budget)
  {
    if keys != [] {
      ForgetFacts(budget, keys[0]);
      TrackedBytes(sizes, Forget(budget, keys[0]), keys[1..]);
    }
  }

  lemma {:induction false} BytesWithout(sizes: map<Key, nat>, keys: seq<Key>, key: Key)
    requires Once(keys)
    ensures Bytes(sizes, keys) == Bytes(sizes, Without(keys, key))
      + if key in keys && key in sizes then sizes[key] else 0
  {
    if keys != [] {
      BytesWithout(sizes, keys[1..], key);
      WithoutFacts(keys[1..], key);
      assert keys == [keys[0]] + keys[1..];
    }
  }

  /** Keys that are tracked with their sizes or in the ledger have no more bytes than
    the budget and the ledger together. */
  lemma {:induction false} AccountedBytes(sizes: map<Key, nat>, budget: seq<Slot>, ledger: seq<Key>, keys: seq<Key>)
    requires Once(keys) && Distinct(budget) && Once(ledger)
    requires forall key :: key in keys && key in sizes ==>
      key in ledger || (key in Sizes(budget) && Sizes(budget)[key] == sizes[key])
    decreases keys
    ensures Bytes(sizes, keys) <= Total(budget) + Bytes(sizes, ledger)
  {
    if keys != [] {
      var key := keys[0];
      if key in ledger {
        WithoutFacts(ledger, key);
        BytesWithout(sizes, ledger, key);
        AccountedBytes(sizes, budget, Without(ledger, key), keys[1..]);
      } else {
        ForgetFacts(budget, key);
        AccountedBytes(sizes, Forget(budget, key), ledger, keys[1..]);
      }
    }
  }
}
