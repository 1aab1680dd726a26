/** JSON strings as the metadata line of an entry file carries them
  (src/cachau/disk.py; `json.dumps` escapes everything but printable ASCII, as
  section 7 of RFC 8259 allows, and `json.loads` reads it back).

  A Python string is a sequence of code points, surrogates included. */
module JsonText {
  import opened Bytes
  import opened Wrappers

  type Code = c: int | 0 <= c < 0x11_0000

  type Text = seq<Code>

  const QUOTE_MARK: Byte := 34
  const ESCAPE: Byte := 92
  const U: Byte := 117

  predicate High(c: int) {
    0xd800 <= c < 0xdc00
  }

  predicate Low(c: int) {
    0xdc00 <= c < 0xe000
  }

  // ------------------------------------------------------------------ hexadecimal

  function HexValue(b: Code): Option<nat> {
    if 48 <= b < 58 then Some(b - 48)
    else if 97 <= b < 103 then Some(b - 87)
    else if 65 <= b < 71 then Some(b - 55)
    else None
  }

  function Hex4(n: nat): (r: Bytes)
    requires n < 0x1_0000
    ensures |r| == 4
  {
    [HexDigit(n / 4096), HexDigit(n / 256 % 16), HexDigit(n / 16 % 16), HexDigit(n % 16)]
  }

  /** The four hexadecimal digits a stream begins with. */
  function Read4(s: Text): (r: Option<nat>)
    ensures r.Some? ==> |s| >= 4 && r.value < 0x1_0000
  {
    if |s| < 4 || HexValue(s[0]).None? || HexValue(s[1]).None? || HexValue(s[2]).None? || HexValue(s[3]).None? then None
    else
      Some(HexValue(s[0]).value * 4096 + HexValue(s[1]).value * 256 + HexValue(s[2]).value * 16 + HexValue(s[3]).value)
  }

  lemma DigitReads(d: nat)
    requires d < 16
    ensures HexValue(HexDigit(d)) == Some(d)
  {
  }

  lemma Digits4(n: nat)
    requires n < 0x1_0000
    ensures n / 4096 < 16
    ensures n / 4096 * 4096 + n / 256 % 16 * 256 + n / 16 % 16 * 16 + n % 16 == n
  {
    var a, b, c := n / 16, n / 16 / 16, n / 16 / 16 / 16;
    assert b == n / 256 && c == n / 4096;
    assert n == 16 * a + n % 16 && a == 16 * b + a % 16 && b == 16 * c + b % 16;
  }

  lemma HexReads(n: nat, r: Text)
    requires n < 0x1_0000
    ensures Read4(Hex4(n) + r) == Some(n)
  {
    Digits4(n);
    DigitReads(n / 4096);
    DigitReads(n / 256 % 16);
    DigitReads(n / 16 % 16);
    DigitReads(n % 16);
    var s := Hex4(n) + r;
    assert s[..4] == Hex4(n);
    assert s[0] == Hex4(n)[0] && s[1] == Hex4(n)[1] && s[2] == Hex4(n)[2] && s[3] == Hex4(n)[3];
  }

  // --------------------------------------------------------------------- printing

  /** The letter of a two-character escape. */
  function Letter(c: Code): Option<Byte> {
    if c == 34 then Some(34)
    else if c == 92 then Some(92)
    else if c == 10 then Some(110)
    else if c == 13 then Some(114)
    else if c == 9 then Some(116)
    else if c == 12 then Some(102)
    else if c == 8 then Some(98)
    else None
  }

  function UnitEscape(n: nat): (r: Bytes)
    requires n < 0x1_0000
    ensures |r| == 6
  {
    [ESCAPE, U] + Hex4(n)
  }

  function HighHalf(c: Code): (n: nat)
    requires c >= 0x1_0000
    ensures High(n)
  {
    0xd800 + (c - 0x1_0000) / 0x400
  }

  function LowHalf(c: Code): (n: nat)
    requires c >= 0x1_0000
    ensures Low(n)
  {
    0xdc00 + (c - 0x1_0000) % 0x400
  }

  function Escaped(c: Code): Bytes {
    if Letter(c).Some? then [ESCAPE, Letter(c).value]
    else if 32 <= c < 127 then [c as Byte]
    else if c < 0x1_0000 then UnitEscape(c)
    else UnitEscape(HighHalf(c)) + UnitEscape(LowHalf(c))
  }

  function EscapedText(t: Text): Bytes {
    if t == [] then [] else Escaped(t[0]) + EscapedText(t[1..])
  }

  function Quoted(t: Text): Bytes {
    [QUOTE_MARK] + (EscapedText(t) + [QUOTE_MARK])
  }

  // ---------------------------------------------------------------------- reading

  function Unescape(b: Code): Option<Code> {
    if b == 34 || b == 92 || b == 47 then Some(b)
    else if b == 98 then Some(8)
    else if b == 102 then Some(12)
    else if b == 110 then Some(10)
    else if b == 114 then Some(13)
    else if b == 116 then Some(9)
    else None
  }

  function Combined(high: nat, low: nat): Code
    requires High(high) && Low(low)
  {
    0x1_0000 + (high - 0xd800) * 0x400 + (low - 0xdc00)
  }

  datatype Scanned = Scanned(text: Text, rest: Text)

  function Cons(c: Code, more: Option<Scanned>): (r: Option<Scanned>)
    ensures r.Some? <==> more.Some?
    ensures r.Some? ==> r.value.rest == more.value.rest
  {
    if more.None? then None else Some(Scanned([c] + more.value.text, more.value.rest))
  }

  /** The string up to its closing quote, from just behind the opening one.  Two
    escaped surrogates in a row are one code point. */
  function Scan(s: Text): (r: Option<Scanned>)
    ensures r.Some? ==> |r.value.rest| < |s|
    decreases |s|, 0
  {
    if s == [] then None
    else if s[0] == QUOTE_MARK then Some(Scanned([], s[1..]))
    else if s[0] == ESCAPE then
      if |s| < 2 then None
      else if s[1] != U then
        if Unescape(s[1]).None? then None else Cons(Unescape(s[1]).value, Scan(s[2..]))
      else if Read4(s[2..]).None? then None
      else ScanUnit(Read4(s[2..]).value, s[6..])
    else if 32 <= s[0] then Cons(s[0], Scan(s[1..]))
    else None
  }

  /** One escaped unit has been read; does the other half of a pair follow? */
  function ScanUnit(n: nat, s: Text): (r: Option<Scanned>)
    requires n < 0x1_0000
    ensures r.Some? ==> |r.value.rest| < |s|
    decreases |s|, 1
  {
    if High(n) && |s| >= 2 && s[0] == ESCAPE && s[1] == U then
      var low := Read4(s[2..]);
      if low.None? then None
      else if Low(low.value) then Cons(Combined(n, low.value), Scan(s[6..]))
      else Cons(n, Scan(s))
    else Cons(n, Scan(s))
  }

  /** Adjacent surrogate halves made one code point. */
  function Merged(t: Text): Text {
    if t == [] then []
    else if |t| >= 2 && High(t[0]) && Low(t[1]) then [Combined(t[0], t[1])] + Merged(t[2..])
    else [t[0]] + Merged(t[1..])
  }

  /** No high surrogate is directly followed by a low one. */
  predicate Unpaired(t: Text) {
    |t| < 2 || (!(High(t[0]) && Low(t[1])) && Unpaired(t[1..]))
  }

  // ------------------------------------------------------------- reading it back

  lemma LetterUnescapes(c: Code)
    requires Letter(c).Some?
    ensures Letter(c).value != U && Unescape(Letter(c).value) == Some(c)
  {
  }

  lemma ScanEscape(s: Text)
    requires |s| >= 2 && s[0] == ESCAPE && s[1] != U && Unescape(s[1]).Some?
    ensures Scan(s) == Cons(Unescape(s[1]).value, Scan(s[2..]))
  {
  }

  lemma ScanLetter(c: Code, e: Text)
    requires Letter(c).Some?
    ensures Scan(Escaped(c) + e) == Cons(c, Scan(e))
  {
    var s := Escaped(c) + e;
    LetterUnescapes(c);
    assert s[0] == ESCAPE && s[1] == Letter(c).value && s[2..] == e;
    ScanEscape(s);
  }

  lemma ScanPrintable(c: Code, e: Text)
    requires Letter(c).None? && 32 <= c < 127
    ensures Scan(Escaped(c) + e) == Cons(c, Scan(e))
  {
    var s := Escaped(c) + e;
    assert s[0] == c && s[1..] == e;
  }

  lemma ScanEscapedUnit(n: nat, e: Text)
    requires n < 0x1_0000
    ensures Scan(UnitEscape(n) + e) == ScanUnit(n, e)
  {
    var s := UnitEscape(n) + e;
    HexReads(n, e);
    assert s[0] == ESCAPE && s[1] == U && s[2..] == Hex4(n) + e && s[6..] == e;
  }

  lemma ScanPair(high: nat, low: nat, e: Text)
    requires High(high) && Low(low)
    ensures ScanUnit(high, UnitEscape(low) + e) == Cons(Combined(high, low), Scan(e))
  {
    var s := UnitEscape(low) + e;
    HexReads(low, e);
    assert s[0] == ESCAPE && s[1] == U && s[2..] == Hex4(low) + e && s[6..] == e;
  }

  /** A stream that does not go on with an escaped low surrogate leaves a unit alone. */
  predicate NoLowNext(e: Text) {
    e == [] || e[0] != ESCAPE || (|e| >= 2 && e[1] != U)
    || (|e| >= 2 && Read4(e[2..]).Some? && !Low(Read4(e[2..]).value))
  }

  lemma ScanAlone(n: nat, e: Text)
    requires n < 0x1_0000 && (High(n) ==> NoLowNext(e))
    ensures ScanUnit(n, e) == Cons(n, Scan(e))
  {
  }

  lemma HalvesCombine(c: Code)
    requires c >= 0x1_0000
    ensures Combined(HighHalf(c), LowHalf(c)) == c
  {
  }

  /** What follows an escaped text: its closing quote and the rest. */
  function Ended(t: Text, r: Text): Text {
    EscapedText(t) + ([QUOTE_MARK] + r)
  }

  lemma EndedStep(t: Text, r: Text)
    requires t != []
    ensures Ended(t, r) == Escaped(t[0]) + Ended(t[1..], r)
  {
    Associate(Escaped(t[0]), EscapedText(t[1..]), [QUOTE_MARK] + r);
  }

  /** The next code point, unless it is itself a low surrogate, is no low half. */
  lemma NextIsNotLow(t: Text, r: Text)
    requires t == [] || !Low(t[0])
    ensures NoLowNext(Ended(t, r))
  {
    if t == [] {
      assert Ended(t, r)[0] == QUOTE_MARK;
    } else {
      EndedStep(t, r);
      var c, e := t[0], Ended(t[1..], r);
      if Letter(c).Some? || 32 <= c < 127 {
        assert (Escaped(c) + e)[0] == Escaped(c)[0];
        assert Letter(c).Some? ==> (Escaped(c) + e)[1] == Letter(c).value;
      } else if c < 0x1_0000 {
        UnitNext(c, e);
      } else {
        Associate(UnitEscape(HighHalf(c)), UnitEscape(LowHalf(c)), e);
        UnitNext(HighHalf(c), UnitEscape(LowHalf(c)) + e);
      }
    }
  }

  lemma UnitNext(n: nat, e: Text)
    requires n < 0x1_0000
    ensures var s := UnitEscape(n) + e; |s| >= 2 && s[0] == ESCAPE && s[1] == U && Read4(s[2..]) == Some(n)
  {
    var s := UnitEscape(n) + e;
    HexReads(n, e);
    assert s[2..] == Hex4(n) + e;
  }

  lemma ScanHalves(high: nat, low: nat, e: Text)
    requires High(high) && Low(low)
    ensures Scan(UnitEscape(high) + (UnitEscape(low) + e)) == Cons(Combined(high, low), Scan(e))
  {
    ScanEscapedUnit(high, UnitEscape(low) + e);
    ScanPair(high, low, e);
  }

  lemma EscapedAstral(c: Code, e: Text)
    requires c >= 0x1_0000
    ensures Escaped(c) + e == UnitEscape(HighHalf(c)) + (UnitEscape(LowHalf(c)) + e)
  {
    Associate(UnitEscape(HighHalf(c)), UnitEscape(LowHalf(c)), e);
  }

  lemma ScanAstral(c: Code, e: Text)
    requires c >= 0x1_0000
    ensures Scan(Escaped(c) + e) == Cons(c, Scan(e))
  {
    EscapedAstral(c, e);
    ScanHalves(HighHalf(c), LowHalf(c), e);
    HalvesCombine(c);
  }

  lemma ScanBasic(c: Code, t: Text, r: Text)
    requires c < 0x1_0000 && Letter(c).None? && !(32 <= c < 127)
    requires High(c) ==> t == [] || !Low(t[0])
    ensures Scan(Escaped(c) + Ended(t, r)) == Cons(c, Scan(Ended(t, r)))
  {
    ScanEscapedUnit(c, Ended(t, r));
    if High(c) {
      NextIsNotLow(t, r);
    }
    ScanAlone(c, Ended(t, r));
  }

  /** A code point that starts no pair is read back as itself. */
  lemma ScanOne(c: Code, t: Text, r: Text)
    requires High(c) ==> t == [] || !Low(t[0])
    ensures Scan(Escaped(c) + Ended(t, r)) == Cons(c, Scan(Ended(t, r)))
  {
    if Letter(c).Some? {
      ScanLetter(c, Ended(t, r));
    } else if 32 <= c < 127 {
      ScanPrintable(c, Ended(t, r));
    } else if c < 0x1_0000 {
      ScanBasic(c, t, r);
    } else {
      ScanAstral(c, Ended(t, r));
    }
  }

  /** Two halves in a row are read back as one code point. */
  lemma ScanTwo(high: Code, low: Code, t: Text, r: Text)
    requires High(high) && Low(low)
    ensures Scan(Escaped(high) + (Escaped(low) + Ended(t, r))) == Cons(Combined(high, low), Scan(Ended(t, r)))
  {
    ScanHalves(high, low, Ended(t, r));
  }

  /** Reading back what was printed gives the text with surrogate pairs merged, and
    what follows the closing quote. */
  lemma {:induction false} ScanPrinted(t: Text, r: Text)
    ensures Scan(Ended(t, r)) == Some(Scanned(Merged(t), r))
    decreases |t|
  {
    if t == [] {
      var s := Ended(t, r);
      assert s == [QUOTE_MARK] + r;
      assert s[1..] == r;
    } else {
      EndedStep(t, r);
      if |t| >= 2 && High(t[0]) && Low(t[1]) {
        EndedStep(t[1..], r);
        assert t[1..][1..] == t[2..];
        ScanTwo(t[0], t[1], t[2..], r);
        ScanPrinted(t[2..], r);
      } else {
        ScanOne(t[0], t[1..], r);
        ScanPrinted(t[1..], r);
      }
    }
  }

  lemma {:induction false} MergedUnchanged(t: Text)
    ensures Unpaired(Merged(t))
    ensures |Merged(t)| <= |t|
    ensures Merged(t) == t <==> Unpaired(t)
    ensures Merged(t) != [] ==> t != [] && (Low(Merged(t)[0]) ==> Merged(t)[0] == t[0])
    decreases |t|
  {
    if |t| >= 2 && High(t[0]) && Low(t[1]) {
      MergedUnchanged(t[2..]);
    } else if t != [] {
      MergedUnchanged(t[1..]);
      assert t == [t[0]] + t[1..];
    }
  }

  /** A string survives the trip through the file exactly when no high surrogate in it
    is directly followed by a low one. */
  lemma TextRoundTrips(t: Text, r: Text)
    ensures Scan(Ended(t, r)) == Some(Scanned(t, r)) <==> Unpaired(t)
  {
    ScanPrinted(t, r);
    MergedUnchanged(t);
  }

  /** In a string, a control character may only be escaped; any other character but the
    quote and the backslash stands for itself. */
  lemma RawCharacters(c: Code, e: Text)
    ensures c < 32 ==> Scan([c] + e) == None
    ensures c >= 32 && c != 34 && c != 92 ==> Scan([c] + e) == Cons(c, Scan(e))
  {
    assert ([c] + e)[0] == c && ([c] + e)[1..] == e;
  }

  lemma MergedPair(high: Code, low: Code)
    requires High(high) && Low(low)
    ensures Merged([high, low]) == [Combined(high, low)]
  {
    assert [high, low][2..] == [];
  }

  /** Two code points that come back as one. */
  lemma PairMerges(high: Code, low: Code, r: Text)
    requires High(high) && Low(low)
    ensures Scan(Ended([high, low], r)) == Some(Scanned([Combined(high, low)], r))
  {
    ScanPrinted([high, low], r);
    MergedPair(high, low);
  }

  /** Printed text is printable ASCII: in particular it holds no newline. */
  lemma {:induction false} PrintedIsAscii(t: Text)
    ensures forall i :: 0 <= i < |EscapedText(t)| ==> 32 <= EscapedText(t)[i] < 127
  {
    if t != [] {
      PrintedIsAscii(t[1..]);
      EscapedIsAscii(t[0]);
    }
  }

  lemma EscapedIsAscii(c: Code)
    ensures forall i :: 0 <= i < |Escaped(c)| ==> 32 <= Escaped(c)[i] < 127
  {
  }
}
