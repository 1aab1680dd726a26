/** Byte strings, fixed-width lengths, decimal text, and how streams built from
  them come apart again. */
module Bytes {
  type Byte = b: int | 0 <= b < 256
  type Bytes = seq<Byte>

  /** The bytes of ASCII text. */
  function Ascii(s: string): (r: Bytes)
    ensures |r| == |s|
  {
    seq(|s|, i requires 0 <= i < |s| => s[i] as int % 256)
  }

  /** A hexadecimal digit, in lower case. */
  function HexDigit(n: nat): Byte
    requires n < 16
  {
    if n < 10 then 48 + n else 87 + n
  }

  lemma Associate<T>(a: seq<T>, b: seq<T>, c: seq<T>)
    ensures (a + b) + c == a + (b + c)
  {
  }

  lemma Nest<T>(a: seq<T>, b: seq<T>, c: seq<T>, d: seq<T>)
    ensures (a + (b + c)) + d == a + (b + (c + d))
  {
  }

  /** Two streams that start with parts of equal length. */
  lemma FixedSplit<T>(a: seq<T>, r: seq<T>, b: seq<T>, s: seq<T>)
    requires a + r == b + s && |a| == |b|
    ensures a == b && r == s
  {
    assert a == (a + r)[..|a|] && b == (b + s)[..|b|];
    assert r == (a + r)[|a|..] && s == (b + s)[|b|..];
  }

  /** Two streams whose first part ends at the first occurrence of a delimiter. */
  lemma DelimitedSplit<T>(a: seq<T>, r: seq<T>, b: seq<T>, s: seq<T>, delimiter: T)
    requires a + [delimiter] + r == b + [delimiter] + s
    requires delimiter !in a && delimiter !in b
    ensures a == b && r == s
  {
    var left, right := a + [delimiter] + r, b + [delimiter] + s;
    assert left[|a|] == delimiter && right[|b|] == delimiter;
    assert forall i :: 0 <= i < |a| ==> left[i] == a[i] && a[i] in a;
    assert forall i :: 0 <= i < |b| ==> right[i] == b[i] && b[i] in b;
    assert |a| == |b|;
    FixedSplit(a + [delimiter], r, b + [delimiter], s);
    FixedSplit(a, [delimiter], b, [delimiter]);
  }

  // ------------------------------------------------------------ big-endian numbers

  const LIMIT: nat := 0x1_0000_0000_0000_0000

  function Pow256(k: nat): nat {
    if k == 0 then 1 else 256 * Pow256(k - 1)
  }

  function BigEndian(n: nat, k: nat): (r: Bytes)
    ensures |r| == k
  {
    if k == 0 then [] else BigEndian(n / 256, k - 1) + [n % 256]
  }

  function Value(s: Bytes): nat {
    if s == [] then 0 else Value(s[..|s| - 1]) * 256 + s[|s| - 1]
  }

  lemma {:induction false} BigEndianValue(n: nat, k: nat)
    requires n < Pow256(k)
    ensures Value(BigEndian(n, k)) == n
  {
    if k > 0 {
      BigEndianValue(n / 256, k - 1);
      var r := BigEndian(n, k);
      assert r[..|r| - 1] == BigEndian(n / 256, k - 1);
    }
  }

  /** An 8-byte big-endian length: exact below LIMIT, which callers check first. */
  function Be8(n: nat): (r: Bytes)
    ensures |r| == 8
  {
    BigEndian(n, 8)
  }

  lemma Be8Injective(m: nat, n: nat)
    requires m < LIMIT && n < LIMIT && Be8(m) == Be8(n)
    ensures m == n
  {
    assert Pow256(4) == 0x1_0000_0000;
    assert Pow256(8) == 256 * (256 * (256 * (256 * Pow256(4))));
    BigEndianValue(m, 8);
    BigEndianValue(n, 8);
  }

  // ------------------------------------------------------------------ decimal text

  const COLON: Byte := 58

  /** `str(n)` for a natural number. */
  function Decimal(n: nat): (r: Bytes)
    ensures r != []
    ensures forall i :: 0 <= i < |r| ==> 48 <= r[i] < 58
  {
    if n < 10 then [48 + n] else Decimal(n / 10) + [48 + n % 10]
  }

  function Digits(s: Bytes): int {
    if s == [] then 0 else Digits(s[..|s| - 1]) * 10 + (s[|s| - 1] as int - 48)
  }

  lemma {:induction false} DecimalValue(n: nat)
    ensures Digits(Decimal(n)) == n
  {
    var r := Decimal(n);
    if n < 10 {
      assert r[..|r| - 1] == [];
    } else {
      DecimalValue(n / 10);
      assert r[..|r| - 1] == Decimal(n / 10);
    }
  }

  /** A decimal number followed by a colon tells where it ends. */
  lemma DecimalSplit(m: nat, r: Bytes, n: nat, s: Bytes)
    requires Decimal(m) + [COLON] + r == Decimal(n) + [COLON] + s
    ensures m == n && r == s
  {
    DelimitedSplit(Decimal(m), r, Decimal(n), s, COLON);
    DecimalValue(m);
    DecimalValue(n);
  }
}
