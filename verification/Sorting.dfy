/** Python's `sorted`, as far as the program relies on it: an ordered arrangement
  of the same elements, which is unique when the order is total. */
module Sorting {
  ghost predicate TotalOrder<T(!new)>(leq: (T, T) -> bool) {
    && (forall x, y :: leq(x, y) || leq(y, x))
    && (forall x, y :: leq(x, y) && leq(y, x) ==> x == y)
    && (forall x, y, z :: leq(x, y) && leq(y, z) ==> leq(x, z))
  }

  predicate SortedBy<T>(leq: (T, T) -> bool, s: seq<T>) {
    |s| < 2 || (leq(s[0], s[1]) && SortedBy(leq, s[1..]))
  }

  function Insert<T>(leq: (T, T) -> bool, x: T, s: seq<T>): seq<T> {
    if s == [] || leq(x, s[0]) then [x] + s else [s[0]] + Insert(leq, x, s[1..])
  }

  function Sort<T>(leq: (T, T) -> bool, s: seq<T>): (r: seq<T>)
    ensures |r| == |s|
    ensures multiset(r) == multiset(s)
  {
    if s == [] then [] else
      InsertFacts(leq, s[0], Sort(leq, s[1..]));
      assert s == [s[0]] + s[1..];
      Insert(leq, s[0], Sort(leq, s[1..]))
  }

  lemma {:induction false} InsertFacts<T>(leq: (T, T) -> bool, x: T, s: seq<T>)
    ensures |Insert(leq, x, s)| == |s| + 1
    ensures multiset(Insert(leq, x, s)) == multiset{x} + multiset(s)
  {
    if !(s == [] || leq(x, s[0])) {
      InsertFacts(leq, x, s[1..]);
      assert s == [s[0]] + s[1..];
    }
  }

  lemma {:induction false} InsertSorted<T(!new)>(leq: (T, T) -> bool, x: T, s: seq<T>)
    requires TotalOrder(leq) && SortedBy(leq, s)
    ensures SortedBy(leq, Insert(leq, x, s))
  {
    if !(s == [] || leq(x, s[0])) {
      InsertSorted(leq, x, s[1..]);
      var r := Insert(leq, x, s);
      assert r[1..] == Insert(leq, x, s[1..]);
      assert leq(s[0], x);
    }
  }

  lemma {:induction false} SortSorted<T(!new)>(leq: (T, T) -> bool, s: seq<T>)
    requires TotalOrder(leq)
    ensures SortedBy(leq, Sort(leq, s))
  {
    if s != [] {
      SortSorted(leq, s[1..]);
      InsertSorted(leq, s[0], Sort(leq, s[1..]));
    }
  }

  /** In a sorted list every element comes before each later one. */
  lemma {:induction false} SortedAt<T(!new)>(leq: (T, T) -> bool, s: seq<T>, i: nat, j: nat)
    requires TotalOrder(leq) && SortedBy(leq, s) && i < j < |s|
    ensures leq(s[i], s[j])
  {
    if i > 0 {
      SortedAt(leq, s[1..], i - 1, j - 1);
    } else if j > 1 {
      SortedAt(leq, s[1..], 0, j - 1);
      assert leq(s[0], s[1]) && leq(s[1], s[j]);
    }
  }

  lemma {:induction false} HeadIsLeast<T(!new)>(leq: (T, T) -> bool, s: seq<T>, x: T)
    requires TotalOrder(leq) && SortedBy(leq, s) && x in s
    ensures leq(s[0], x)
  {
    if x != s[0] {
      HeadIsLeast(leq, s[1..], x);
      assert leq(s[0], s[1]) && leq(s[1], x);
    }
  }

  lemma HeadsAgree<T(!new)>(leq: (T, T) -> bool, a: seq<T>, b: seq<T>)
    requires TotalOrder(leq) && SortedBy(leq, a) && SortedBy(leq, b)
    requires multiset(a) == multiset(b) && a != []
    ensures b != [] && a[0] == b[0]
  {
    assert |b| == |multiset(b)| == |multiset(a)|;
    assert a[0] in multiset(a) && b[0] in multiset(b);
    HeadIsLeast(leq, b, a[0]);
    HeadIsLeast(leq, a, b[0]);
  }

  lemma TailsAgree<T>(a: seq<T>, b: seq<T>)
    requires a != [] && b != [] && a[0] == b[0] && multiset(a) == multiset(b)
    ensures multiset(a[1..]) == multiset(b[1..])
  {
    assert a == [a[0]] + a[1..] && b == [b[0]] + b[1..];
    assert multiset(a[1..]) == multiset(a) - multiset{a[0]};
    assert multiset(b[1..]) == multiset(b) - multiset{b[0]};
  }

  /** Two ordered arrangements of the same elements are the same arrangement. */
  lemma {:induction false} SortedIsUnique<T(!new)>(leq: (T, T) -> bool, a: seq<T>, b: seq<T>)
    requires TotalOrder(leq) && SortedBy(leq, a) && SortedBy(leq, b)
    requires multiset(a) == multiset(b)
    ensures a == b
  {
    if a == [] {
      assert |b| == |multiset(b)|;
    } else {
      HeadsAgree(leq, a, b);
      TailsAgree(a, b);
      SortedIsUnique(leq, a[1..], b[1..]);
      assert a == [a[0]] + a[1..] && b == [b[0]] + b[1..];
    }
  }

  /** Sorting forgets the order of its input, and nothing else. */
  lemma SortForgetsOrder<T(!new)>(leq: (T, T) -> bool, a: seq<T>, b: seq<T>)
    requires TotalOrder(leq)
    ensures Sort(leq, a) == Sort(leq, b) <==> multiset(a) == multiset(b)
  {
    if multiset(a) == multiset(b) {
      SortSorted(leq, a);
      SortSorted(leq, b);
      SortedIsUnique(leq, Sort(leq, a), Sort(leq, b));
    }
  }

  /** All but one. */
  function Except<T>(s: seq<T>, j: nat): seq<T>
    requires j < |s|
  {
    s[..j] + s[j + 1..]
  }

  lemma ExceptMultiset<T>(s: seq<T>, j: nat)
    requires j < |s|
    ensures multiset(Except(s, j)) == multiset(s) - multiset{s[j]}
  {
    assert s == s[..j] + [s[j]] + s[j + 1..];
  }

  // ------------------------------------------------------- lexicographic order

  /** The order of byte strings and of strings (by code point). */
  predicate LexLeq(a: seq<int>, b: seq<int>) {
    a == [] || (b != [] && (a[0] < b[0] || (a[0] == b[0] && LexLeq(a[1..], b[1..]))))
  }

  lemma {:induction false} LexTotal(a: seq<int>, b: seq<int>)
    ensures LexLeq(a, b) || LexLeq(b, a)
    ensures LexLeq(a, b) && LexLeq(b, a) ==> a == b
  {
    if a != [] && b != [] {
      LexTotal(a[1..], b[1..]);
      assert a == [a[0]] + a[1..] && b == [b[0]] + b[1..];
    }
  }

  lemma {:induction false} LexTransitive(a: seq<int>, b: seq<int>, c: seq<int>)
    requires LexLeq(a, b) && LexLeq(b, c)
    ensures LexLeq(a, c)
  {
    if a != [] && a[0] == b[0] == c[0] {
      LexTransitive(a[1..], b[1..], c[1..]);
    }
  }

  lemma LexIsTotalOrder()
    ensures TotalOrder(LexLeq)
  {
    forall x, y ensures LexLeq(x, y) || LexLeq(y, x) {
      LexTotal(x, y);
    }
    forall x, y | LexLeq(x, y) && LexLeq(y, x) ensures x == y {
      LexTotal(x, y);
    }
    forall x, y, z | LexLeq(x, y) && LexLeq(y, z) ensures LexLeq(x, z) {
      LexTransitive(x, y, z);
    }
  }

  function Codes(s: string): seq<int> {
    seq(|s|, i requires 0 <= i < |s| => s[i] as int)
  }

  lemma CodesInjective(a: string, b: string)
    requires Codes(a) == Codes(b)
    ensures a == b
  {
    assert |Codes(a)| == |a| && |Codes(b)| == |b|;
    forall i | 0 <= i < |a| ensures a[i] == b[i] {
      assert Codes(a)[i] == Codes(b)[i];
    }
  }

  /** Python's order of strings, by code point. */
  predicate StringLeq(a: string, b: string) {
    LexLeq(Codes(a), Codes(b))
  }

  lemma StringIsTotalOrder()
    ensures TotalOrder(StringLeq)
  {
    forall x, y ensures StringLeq(x, y) || StringLeq(y, x) {
      LexTotal(Codes(x), Codes(y));
    }
    forall x, y | StringLeq(x, y) && StringLeq(y, x) ensures x == y {
      LexTotal(Codes(x), Codes(y));
      CodesInjective(x, y);
    }
    forall x, y, z | StringLeq(x, y) && StringLeq(y, z) ensures StringLeq(x, z) {
      LexTransitive(Codes(x), Codes(y), Codes(z));
    }
  }

  lemma {:induction false} LexCommon(p: seq<int>, a: seq<int>, b: seq<int>)
    ensures LexLeq(p + a, p + b) <==> LexLeq(a, b)
  {
    if p == [] {
      assert p + a == a && p + b == b;
    } else {
      assert (p + a)[1..] == p[1..] + a && (p + b)[1..] == p[1..] + b;
      LexCommon(p[1..], a, b);
    }
  }

  lemma CodesOf(p: string, x: char, r: string)
    ensures Codes(p + ([x] + r)) == Codes(p) + ([x as int] + Codes(r))
  {
  }

  /** Strings are ordered by the first code point in which they differ, and a prefix
    comes first. */
  lemma StringOrder(p: string, x: char, r: string, y: char, s: string)
    requires x < y
    ensures StringLeq(p + ([x] + r), p + ([y] + s)) && !StringLeq(p + ([y] + s), p + ([x] + r))
    ensures StringLeq(p, p + ([x] + r))
  {
    CodesOf(p, x, r);
    CodesOf(p, y, s);
    LexCommon(Codes(p), [x as int] + Codes(r), [y as int] + Codes(s));
    LexCommon(Codes(p), [y as int] + Codes(s), [x as int] + Codes(r));
    LexCommon(Codes(p), [], [x as int] + Codes(r));
    assert Codes(p) + [] == Codes(p);
  }
}
