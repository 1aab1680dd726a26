/** The canonical rendering of code constants (src/cachau/fingerprint.py,
  `_canonical_const`).

  Text is its UTF-8 bytes.  A leaf is modelled by the form of its `repr`: bare text
  (numbers, None, booleans, the ellipsis), a quoted literal of units none of which is
  an unescaped quote, or a parenthesised complex number. */
module Constants {
  import opened Bytes
  import opened Sorting

  const COMMA: Byte := 44
  const OPEN: Byte := 40
  const CLOSE: Byte := 41
  const OPEN_BRACE: Byte := 123
  const CLOSE_BRACE: Byte := 125
  const APOSTROPHE: Byte := 39
  const QUOTE: Byte := 34
  const BACKSLASH: Byte := 92

  datatype Unit = Char(c: Byte) | Escaped(c: Byte)

  datatype Const =
    | Bare(text: Bytes)
    | Quoted(isBytes: bool, quote: Byte, units: seq<Unit>)
    | Complex(inner: Bytes)
    | Tuple(items: seq<Const>)
    | Set(frozen: bool, members: seq<Const>)

  predicate Delimits(b: Byte) {
    b == COMMA || b == OPEN || b == CLOSE || b == OPEN_BRACE || b == CLOSE_BRACE || b == APOSTROPHE || b == QUOTE
  }

  predicate PlainText(t: Bytes) {
    forall i :: 0 <= i < |t| ==> !Delimits(t[i])
  }

  /** The text of a complex number with two parts: a sign that is not an exponent's,
    somewhere after the start, and a final `j`. */
  predicate ComplexText(t: Bytes) {
    t != [] && t[|t| - 1] == 106
    && exists i :: 0 < i < |t| && (t[i] == 43 || t[i] == 45) && t[i - 1] != 101
  }

  /** No unit is a bare quote or a bare backslash. */
  predicate AllUnits(quote: Byte, units: seq<Unit>) {
    units == []
    || ((units[0].Char? ==> units[0].c != quote && units[0].c != BACKSLASH) && AllUnits(quote, units[1..]))
  }

  /** The forms `repr` gives. */
  predicate WellFormed(c: Const)
    decreases c, 0
  {
    match c
    case Bare(text) => text != [] && PlainText(text) && !ComplexText(text)
    case Quoted(_, quote, units) =>
      (quote == APOSTROPHE || quote == QUOTE)
      && AllUnits(quote, units)
    case Complex(inner) => PlainText(inner) && ComplexText(inner)
    case Tuple(items) => AllWellFormed(items)
    case Set(_, members) => AllWellFormed(members)
  }

  predicate AllWellFormed(cs: seq<Const>)
    decreases cs, 1
  {
    cs == [] || (WellFormed(cs[0]) && AllWellFormed(cs[1..]))
  }

  // ------------------------------------------------------------------- rendering

  predicate TextLeq(a: Bytes, b: Bytes) {
    LexLeq(a, b)
  }

  /** `",".join(texts)`: the first, then each other behind a comma. */
  function Join(texts: seq<Bytes>): Bytes {
    if texts == [] then [] else texts[0] + Behind(texts[1..])
  }

  function Behind(texts: seq<Bytes>): Bytes {
    if texts == [] then [] else [COMMA] + (texts[0] + Behind(texts[1..]))
  }

  function UnitText(u: Unit): Bytes {
    match u
    case Char(c) => [c]
    case Escaped(c) => [BACKSLASH, c]
  }

  function UnitsText(units: seq<Unit>): Bytes {
    if units == [] then [] else UnitText(units[0]) + UnitsText(units[1..])
  }

  /** What a rendering has before its first delimiter. */
  function Token(c: Const): Bytes {
    match c
    case Bare(text) => text
    case Quoted(isBytes, _, _) => if isBytes then [98] else []
    case Set(frozen, _) => Ascii(if frozen then "frozenset" else "set")
    case _ => []
  }

  function Body(c: Const): Bytes
    decreases c, 0
  {
    match c
    case Bare(_) => []
    case Quoted(_, quote, units) => [quote] + (UnitsText(units) + [quote])
    case Complex(inner) => [OPEN] + (inner + [CLOSE])
    case Tuple(items) => [OPEN] + (Join(RenderAll(items)) + [CLOSE])
    case Set(_, members) =>
      [OPEN, OPEN_BRACE] + (Join(Sort(TextLeq, RenderAll(members))) + [CLOSE_BRACE, CLOSE])
  }

  function Render(c: Const): Bytes
    decreases c, 1
  {
    Token(c) + Body(c)
  }

  function RenderAll(cs: seq<Const>): (texts: seq<Bytes>)
    ensures |texts| == |cs|
    decreases cs, 2
  {
    if cs == [] then [] else [Render(cs[0])] + RenderAll(cs[1..])
  }

  // -------------------------------------------------------- when constants are the same

  /** Equality of constants, sets up to the order of their members. */
  ghost predicate Same(a: Const, b: Const)
    decreases a, 1
  {
    match a
    case Tuple(items) => b.Tuple? && SameAll(items, b.items)
    case Set(frozen, members) => b.Set? && frozen == b.frozen && SameMembers(members, b.members)
    case _ => a == b
  }

  ghost predicate SameAll(xs: seq<Const>, ys: seq<Const>)
    decreases xs, 0
  {
    |xs| == |ys| && (xs == [] || (Same(xs[0], ys[0]) && SameAll(xs[1..], ys[1..])))
  }

  /** The members pair off, each with one that is the same. */
  ghost predicate SameMembers(xs: seq<Const>, ys: seq<Const>)
    decreases xs, 0
  {
    |xs| == |ys|
    && (xs == [] || exists j :: 0 <= j < |ys| && Same(xs[0], ys[j]) && SameMembers(xs[1..], Except(ys, j)))
  }

  // --------------------------------------------------------- taking renderings apart

  /** What may follow a rendering: nothing, or a delimiter that continues or closes. */
  predicate Stops(r: Bytes) {
    r == [] || r[0] == COMMA || r[0] == CLOSE || r[0] == CLOSE_BRACE
  }

  predicate Closes(r: Bytes) {
    r != [] && (r[0] == CLOSE || r[0] == CLOSE_BRACE)
  }

  predicate StartsDelimited(r: Bytes) {
    r == [] || Delimits(r[0])
  }

  /** How far the first delimiter is. */
  function PlainRun(s: Bytes): nat {
    if s == [] || Delimits(s[0]) then 0 else 1 + PlainRun(s[1..])
  }

  lemma {:induction false} RunEnds(t: Bytes, x: Bytes)
    requires PlainText(t) && StartsDelimited(x)
    ensures PlainRun(t + x) == |t|
  {
    if t == [] {
      assert t + x == x;
    } else {
      assert (t + x)[1..] == t[1..] + x;
      RunEnds(t[1..], x);
    }
  }

  lemma TokenSplit(t: Bytes, x: Bytes, u: Bytes, y: Bytes)
    requires t + x == u + y && PlainText(t) && PlainText(u) && StartsDelimited(x) && StartsDelimited(y)
    ensures t == u && x == y
  {
    RunEnds(t, x);
    RunEnds(u, y);
    FixedSplit(t, x, u, y);
  }

  lemma UnitSplit(x: Unit, r: Bytes, y: Unit, s: Bytes)
    requires x.Char? ==> x.c != BACKSLASH
    requires y.Char? ==> y.c != BACKSLASH
    requires UnitText(x) + r == UnitText(y) + s
    ensures x == y && r == s
  {
    assert (UnitText(x) + r)[0] == UnitText(x)[0] && (UnitText(y) + s)[0] == UnitText(y)[0];
    assert |UnitText(x)| == |UnitText(y)|;
    FixedSplit(UnitText(x), r, UnitText(y), s);
    assert UnitText(x)[|UnitText(x)| - 1] == x.c && UnitText(y)[|UnitText(y)| - 1] == y.c;
  }

  lemma UnitStarts(quote: Byte, xs: seq<Unit>, r: Bytes)
    requires xs != [] && AllUnits(quote, xs) && quote != BACKSLASH
    ensures UnitsText(xs) + r == UnitText(xs[0]) + (UnitsText(xs[1..]) + r)
    ensures (UnitText(xs[0]) + (UnitsText(xs[1..]) + r))[0] != quote
  {
    Associate(UnitText(xs[0]), UnitsText(xs[1..]), r);
  }

  lemma {:induction false} UnitsSplit(quote: Byte, xs: seq<Unit>, r: Bytes, ys: seq<Unit>, s: Bytes)
    requires AllUnits(quote, xs) && AllUnits(quote, ys) && quote != BACKSLASH
    requires UnitsText(xs) + ([quote] + r) == UnitsText(ys) + ([quote] + s)
    ensures xs == ys && r == s
  {
    var x, y := [quote] + r, [quote] + s;
    assert [] + x == x && [] + y == y;
    if xs == [] && ys == [] {
      FixedSplit([quote], r, [quote], s);
    } else if xs == [] {
      UnitStarts(quote, ys, y);
    } else if ys == [] {
      UnitStarts(quote, xs, x);
    } else {
      UnitStarts(quote, xs, x);
      UnitStarts(quote, ys, y);
      UnitSplit(xs[0], UnitsText(xs[1..]) + x, ys[0], UnitsText(ys[1..]) + y);
      UnitsSplit(quote, xs[1..], r, ys[1..], s);
      assert xs == [xs[0]] + xs[1..] && ys == [ys[0]] + ys[1..];
    }
  }

  /** The same kind with the same parts as texts: members in sorted order. */
  predicate SameShape(a: Const, b: Const) {
    match a
    case Tuple(items) => b.Tuple? && RenderAll(items) == RenderAll(b.items)
    case Set(frozen, members) =>
      b.Set? && frozen == b.frozen && Sort(TextLeq, RenderAll(members)) == Sort(TextLeq, RenderAll(b.members))
    case _ => a == b
  }

  function Height(c: Const): nat
    decreases c, 0
  {
    match c
    case Tuple(items) => 1 + Tallest(items)
    case Set(_, members) => 1 + Tallest(members)
    case _ => 0
  }

  function Tallest(cs: seq<Const>): (n: nat)
    ensures forall i :: 0 <= i < |cs| ==> Height(cs[i]) <= n
    decreases cs, 1
  {
    if cs == [] then 0
    else if Height(cs[0]) > Tallest(cs[1..]) then Height(cs[0]) else Tallest(cs[1..])
  }

  /** The text is the rendering of some well-formed constant of at most that height. */
  ghost predicate IsText(t: Bytes, height: nat) {
    exists c :: WellFormed(c) && Height(c) <= height && Render(c) == t
  }

  ghost predicate AreTexts(ts: seq<Bytes>, height: nat) {
    forall i :: 0 <= i < |ts| ==> IsText(ts[i], height)
  }

  lemma {:induction false} RenderAllAt(cs: seq<Const>, i: nat)
    requires i < |cs|
    ensures RenderAll(cs)[i] == Render(cs[i])
    ensures AllWellFormed(cs) ==> WellFormed(cs[i])
  {
    if i > 0 {
      RenderAllAt(cs[1..], i - 1);
    }
  }

  lemma RenderedAreTexts(cs: seq<Const>)
    requires AllWellFormed(cs)
    ensures AreTexts(RenderAll(cs), Tallest(cs)) && AreTexts(Sort(TextLeq, RenderAll(cs)), Tallest(cs))
  {
    var texts, sorted := RenderAll(cs), Sort(TextLeq, RenderAll(cs));
    forall i | 0 <= i < |cs| ensures IsText(texts[i], Tallest(cs)) {
      RenderAllAt(cs, i);
    }
    forall i | 0 <= i < |sorted| ensures IsText(sorted[i], Tallest(cs)) {
      assert sorted[i] in multiset(sorted);
      assert sorted[i] in multiset(texts);
      assert sorted[i] in texts;
    }
  }

  lemma TokenIsPlain(c: Const)
    requires WellFormed(c)
    ensures PlainText(Token(c))
    ensures c.Bare? <==> Body(c) == []
    ensures StartsDelimited(Body(c))
  {
    if c.Set? {
      assert Ascii("frozenset") == [102, 114, 111, 122, 101, 110, 115, 101, 116];
      assert Ascii("set") == [115, 101, 116];
    }
  }

  lemma BodyStarts(c: Const, r: Bytes)
    requires WellFormed(c) && Stops(r)
    ensures StartsDelimited(Body(c) + r)
  {
    TokenIsPlain(c);
    if c.Bare? {
      assert [] + r == r;
    } else {
      assert (Body(c) + r)[0] == Body(c)[0];
    }
  }

  /** A rendering is not empty and does not begin with what may follow one. */
  lemma RenderStarts(c: Const, r: Bytes)
    requires WellFormed(c)
    ensures Render(c) + r != [] && !Stops(Render(c) + r)
  {
    TokenIsPlain(c);
    if Token(c) != [] {
      assert (Render(c) + r)[0] == Token(c)[0];
    } else {
      assert !c.Bare?;
      assert (Render(c) + r)[0] == Body(c)[0];
      BodyOpens(c);
    }
  }

  lemma BodyOpens(c: Const)
    requires WellFormed(c) && !c.Bare?
    ensures Body(c) != []
    ensures Body(c)[0] == if c.Quoted? then c.quote else OPEN
  {
  }

  /** Renderings that agree up to what follows have the same token and the same body
    up to what follows. */
  lemma BodiesAgree(a: Const, b: Const, r: Bytes, s: Bytes)
    requires WellFormed(a) && WellFormed(b) && Stops(r) && Stops(s)
    requires Render(a) + r == Render(b) + s
    ensures Token(a) == Token(b) && Body(a) + r == Body(b) + s
  {
    TokenIsPlain(a);
    TokenIsPlain(b);
    BodyStarts(a, r);
    BodyStarts(b, s);
    Associate(Token(a), Body(a), r);
    Associate(Token(b), Body(b), s);
    TokenSplit(Token(a), Body(a) + r, Token(b), Body(b) + s);
  }

  // ------------------------------------------------------------- unique renderings

  lemma OpenSplit(x: Bytes, r: Bytes, y: Bytes, s: Bytes)
    requires ([OPEN] + (x + [CLOSE])) + r == ([OPEN] + (y + [CLOSE])) + s
    ensures x + ([CLOSE] + r) == y + ([CLOSE] + s)
  {
    assert ([OPEN] + (x + [CLOSE])) + r == [OPEN] + (x + ([CLOSE] + r));
    assert ([OPEN] + (y + [CLOSE])) + s == [OPEN] + (y + ([CLOSE] + s));
    FixedSplit([OPEN], x + ([CLOSE] + r), [OPEN], y + ([CLOSE] + s));
  }

  lemma BraceSplit(x: Bytes, r: Bytes, y: Bytes, s: Bytes)
    requires ([OPEN, OPEN_BRACE] + (x + [CLOSE_BRACE, CLOSE])) + r == ([OPEN, OPEN_BRACE] + (y + [CLOSE_BRACE, CLOSE])) + s
    ensures x + ([CLOSE_BRACE, CLOSE] + r) == y + ([CLOSE_BRACE, CLOSE] + s)
  {
    var end := [CLOSE_BRACE, CLOSE];
    assert ([OPEN, OPEN_BRACE] + (x + end)) + r == [OPEN, OPEN_BRACE] + (x + (end + r));
    assert ([OPEN, OPEN_BRACE] + (y + end)) + s == [OPEN, OPEN_BRACE] + (y + (end + s));
    FixedSplit([OPEN, OPEN_BRACE], x + (end + r), [OPEN, OPEN_BRACE], y + (end + s));
  }

  lemma QuotedSplit(a: Const, b: Const, r: Bytes, s: Bytes)
    requires a.Quoted? && b.Quoted? && WellFormed(a) && WellFormed(b)
    requires Token(a) == Token(b) && Body(a) + r == Body(b) + s
    ensures a == b && r == s
  {
    var p, q := [a.quote], [b.quote];
    var x, y := UnitsText(a.units), UnitsText(b.units);
    assert Body(a) + r == p + (x + (p + r));
    assert Body(b) + s == q + (y + (q + s));
    FixedSplit(p, x + (p + r), q, y + (q + s));
    assert p[0] == q[0];
    UnitsSplit(a.quote, a.units, r, b.units, s);
  }

  lemma ComplexSplit(a: Const, b: Const, r: Bytes, s: Bytes)
    requires a.Complex? && b.Complex? && WellFormed(a) && WellFormed(b) && Body(a) + r == Body(b) + s
    ensures a == b && r == s
  {
    OpenSplit(a.inner, r, b.inner, s);
    TokenSplit(a.inner, [CLOSE] + r, b.inner, [CLOSE] + s);
    FixedSplit([CLOSE], r, [CLOSE], s);
  }

  lemma ComplexIsNoItem(inner: Bytes, r: Bytes, first: Const, rest: Bytes)
    requires PlainText(inner) && ComplexText(inner) && WellFormed(first) && Stops(rest)
    ensures inner + ([CLOSE] + r) != Render(first) + rest
  {
    TokenIsPlain(first);
    TokenIsNotComplex(first);
    var x, y := [CLOSE] + r, Body(first) + rest;
    assert StartsDelimited(x) && StartsDelimited(y);
    assert Render(first) + rest == Token(first) + y;
    if inner + x == Token(first) + y {
      TokenSplit(inner, x, Token(first), y);
    }
  }

  lemma JoinFirst(texts: seq<Bytes>, s: Bytes)
    requires texts != []
    ensures Join(texts) + s == texts[0] + (Behind(texts[1..]) + s)
    ensures Closes(s) ==> Stops(Behind(texts[1..]) + s)
  {
  }

  /** A parenthesised complex number is no tuple. */
  lemma ComplexIsNoTuple(a: Const, b: Const, r: Bytes, s: Bytes)
    requires a.Complex? && b.Tuple? && WellFormed(a) && WellFormed(b)
    ensures Body(a) + r != Body(b) + s
  {
    var texts, end := RenderAll(b.items), [CLOSE] + s;
    if Body(a) + r == Body(b) + s {
      OpenSplit(a.inner, r, Join(texts), s);
      if b.items == [] {
        assert Join(texts) + end == end;
        TokenSplit(a.inner, [CLOSE] + r, [], end);
      } else {
        JoinFirst(texts, end);
        ComplexIsNoItem(a.inner, r, b.items[0], Behind(texts[1..]) + end);
      }
    }
  }

  lemma TokenIsNotComplex(c: Const)
    requires WellFormed(c)
    ensures !ComplexText(Token(c))
  {
  }

  /** Bodies that agree up to what follows are of the same kind. */
  lemma SameKind(a: Const, b: Const, r: Bytes, s: Bytes)
    requires WellFormed(a) && WellFormed(b) && Stops(r) && Stops(s)
    requires Token(a) == Token(b) && Body(a) + r == Body(b) + s
    ensures a.Bare? == b.Bare? && a.Quoted? == b.Quoted? && a.Set? == b.Set?
    ensures a.Complex? == b.Complex? && a.Tuple? == b.Tuple?
    ensures a.Set? ==> a.frozen == b.frozen
  {
    TokenIsPlain(a);
    TokenIsPlain(b);
    Openings(a, r);
    Openings(b, s);
    SetTokens(a);
    SetTokens(b);
    if a.Complex? && b.Tuple? {
      ComplexIsNoTuple(a, b, r, s);
    } else if a.Tuple? && b.Complex? {
      ComplexIsNoTuple(b, a, s, r);
    }
  }

  /** What a body and what follows it begin with. */
  lemma Openings(c: Const, r: Bytes)
    requires WellFormed(c) && Stops(r)
    ensures c.Bare? <==> Stops(Body(c) + r)
    ensures c.Quoted? <==> Body(c) + r != [] && ((Body(c) + r)[0] == QUOTE || (Body(c) + r)[0] == APOSTROPHE)
  {
  }

  lemma SetTokens(c: Const)
    ensures c.Set? ==> |Token(c)| == if c.frozen then 9 else 3
    ensures c.Complex? || c.Tuple? ==> Token(c) == []
  {
  }

  /** Renderings that agree up to what follows have the same shape, and the same
    follows. */
  lemma {:induction false} TextSplit(a: Const, b: Const, r: Bytes, s: Bytes)
    requires WellFormed(a) && WellFormed(b) && Stops(r) && Stops(s)
    requires Render(a) + r == Render(b) + s
    ensures SameShape(a, b) && Render(a) == Render(b) && r == s
    decreases Height(a), 1, 0
  {
    BodiesAgree(a, b, r, s);
    SameKind(a, b, r, s);
    match a {
      case Bare(_) => assert [] + r == r && [] + s == s;
      case Quoted(_, _, _) => QuotedSplit(a, b, r, s);
      case Complex(_) => ComplexSplit(a, b, r, s);
      case Tuple(items) => TupleSplit(a, b, r, s);
      case Set(_, members) => SetSplit(a, b, r, s);
    }
  }

  lemma {:induction false} TupleSplit(a: Const, b: Const, r: Bytes, s: Bytes)
    requires a.Tuple? && b.Tuple? && WellFormed(a) && WellFormed(b) && Body(a) + r == Body(b) + s
    ensures SameShape(a, b) && Body(a) == Body(b) && r == s
    decreases Height(a), 0, 0
  {
    var xs, ys := RenderAll(a.items), RenderAll(b.items);
    OpenSplit(Join(xs), r, Join(ys), s);
    RenderedAreTexts(a.items);
    RenderedAreTexts(b.items);
    JoinSplit(xs, Tallest(a.items), [CLOSE] + r, ys, Tallest(b.items), [CLOSE] + s);
    FixedSplit([CLOSE], r, [CLOSE], s);
  }

  lemma {:induction false} SetSplit(a: Const, b: Const, r: Bytes, s: Bytes)
    requires a.Set? && b.Set? && a.frozen == b.frozen && WellFormed(a) && WellFormed(b) && Body(a) + r == Body(b) + s
    ensures SameShape(a, b) && Body(a) == Body(b) && r == s
    decreases Height(a), 0, 0
  {
    var xs, ys := Sort(TextLeq, RenderAll(a.members)), Sort(TextLeq, RenderAll(b.members));
    BraceSplit(Join(xs), r, Join(ys), s);
    RenderedAreTexts(a.members);
    RenderedAreTexts(b.members);
    JoinSplit(xs, Tallest(a.members), [CLOSE_BRACE, CLOSE] + r, ys, Tallest(b.members), [CLOSE_BRACE, CLOSE] + s);
    FixedSplit([CLOSE_BRACE, CLOSE], r, [CLOSE_BRACE, CLOSE], s);
  }

  /** A joined list is empty exactly when what follows it comes first. */
  lemma JoinStarts(xs: seq<Bytes>, m: nat, r: Bytes)
    requires AreTexts(xs, m) && Closes(r)
    ensures Join(xs) + r != [] && (Stops(Join(xs) + r) <==> xs == [])
    ensures xs == [] ==> Join(xs) + r == r
  {
    if xs == [] {
      assert [] + r == r;
    } else {
      JoinFirst(xs, r);
      TextStarts(xs[0], m, Behind(xs[1..]) + r);
    }
  }

  /** Joined lists of renderings come apart into the same renderings. */
  lemma {:induction false} JoinSplit(xs: seq<Bytes>, m: nat, r: Bytes, ys: seq<Bytes>, n: nat, s: Bytes)
    requires AreTexts(xs, m) && AreTexts(ys, n) && Closes(r) && Closes(s)
    requires Join(xs) + r == Join(ys) + s
    ensures xs == ys && r == s
    decreases m, 3, |xs|
  {
    JoinStarts(xs, m, r);
    JoinStarts(ys, n, s);
    if xs != [] && ys != [] {
      JoinBehind(xs, r);
      JoinBehind(ys, s);
      BehindSplit(xs, m, r, ys, n, s);
    }
  }

  lemma JoinBehind(xs: seq<Bytes>, r: Bytes)
    requires xs != []
    ensures Behind(xs) + r == [COMMA] + (Join(xs) + r)
  {
    Associate([COMMA], Join(xs), r);
  }

  lemma TextStarts(t: Bytes, height: nat, r: Bytes)
    requires IsText(t, height)
    ensures t + r != [] && !Stops(t + r)
  {
    var c :| WellFormed(c) && Height(c) <= height && Render(c) == t;
    RenderStarts(c, r);
  }

  lemma {:induction false} FirstSplit(x: Bytes, m: nat, r: Bytes, y: Bytes, n: nat, s: Bytes)
    requires IsText(x, m) && IsText(y, n) && Stops(r) && Stops(s) && x + r == y + s
    ensures x == y && r == s
    decreases m, 2, 0
  {
    var a :| WellFormed(a) && Height(a) <= m && Render(a) == x;
    var b :| WellFormed(b) && Height(b) <= n && Render(b) == y;
    TextSplit(a, b, r, s);
  }

  lemma TailTexts(ts: seq<Bytes>, height: nat)
    requires ts != [] && AreTexts(ts, height)
    ensures AreTexts(ts[1..], height)
  {
    forall i | 0 <= i < |ts| - 1 ensures IsText(ts[1..][i], height) {
      assert IsText(ts[i + 1], height);
    }
  }

  lemma {:induction false} BehindSplit(xs: seq<Bytes>, m: nat, r: Bytes, ys: seq<Bytes>, n: nat, s: Bytes)
    requires AreTexts(xs, m) && AreTexts(ys, n) && Closes(r) && Closes(s)
    requires Behind(xs) + r == Behind(ys) + s
    ensures xs == ys && r == s
    decreases m, 2, |xs|
  {
    BehindStarts(xs, r);
    BehindStarts(ys, s);
    if xs != [] && ys != [] {
      FixedSplit([COMMA], xs[0] + (Behind(xs[1..]) + r), [COMMA], ys[0] + (Behind(ys[1..]) + s));
      BehindStarts(xs[1..], r);
      BehindStarts(ys[1..], s);
      FirstSplit(xs[0], m, Behind(xs[1..]) + r, ys[0], n, Behind(ys[1..]) + s);
      TailTexts(xs, m);
      TailTexts(ys, n);
      BehindSplit(xs[1..], m, r, ys[1..], n, s);
      assert xs == [xs[0]] + xs[1..] && ys == [ys[0]] + ys[1..];
    }
  }

  lemma BehindStarts(xs: seq<Bytes>, r: Bytes)
    requires Closes(r)
    ensures Stops(Behind(xs) + r)
    ensures xs == [] <==> Closes(Behind(xs) + r)
    ensures xs == [] ==> Behind(xs) + r == r
    ensures xs != [] ==> Behind(xs) + r == [COMMA] + (xs[0] + (Behind(xs[1..]) + r))
  {
    if xs == [] {
      assert [] + r == r;
    } else {
      Nest([COMMA], xs[0], Behind(xs[1..]), r);
    }
  }

  // ---------------------------------------------------- the two directions together

  lemma TextsAreOrdered()
    ensures TotalOrder(TextLeq)
  {
    forall x: Bytes, y: Bytes ensures TextLeq(x, y) || TextLeq(y, x) {
      LexTotal(x, y);
    }
    forall x: Bytes, y: Bytes | TextLeq(x, y) && TextLeq(y, x) ensures x == y {
      LexTotal(x, y);
    }
    forall x: Bytes, y: Bytes, z: Bytes | TextLeq(x, y) && TextLeq(y, z) ensures TextLeq(x, z) {
      LexTransitive(x, y, z);
    }
  }

  lemma {:induction false} RenderAllExcept(cs: seq<Const>, j: nat)
    requires j < |cs|
    ensures RenderAll(Except(cs, j)) == Except(RenderAll(cs), j)
    ensures AllWellFormed(cs) ==> AllWellFormed(Except(cs, j))
  {
    var rest, texts := cs[1..], RenderAll(cs[1..]);
    if j == 0 {
      assert Except(cs, 0) == rest;
      assert Except(RenderAll(cs), 0) == texts;
    } else {
      RenderAllExcept(rest, j - 1);
      var left := Except(cs, j);
      assert left[0] == cs[0] && left[1..] == Except(rest, j - 1);
      assert Except(RenderAll(cs), j) == [Render(cs[0])] + Except(texts, j - 1);
    }
  }

  lemma PickText(texts: seq<Bytes>, t: Bytes) returns (j: nat)
    requires t in multiset(texts)
    ensures j < |texts| && texts[j] == t
  {
    assert t in texts;
    j :| 0 <= j < |texts| && texts[j] == t;
  }

  /** Equal renderings are of the same constant. */
  lemma {:induction false} RenderInjective(a: Const, b: Const)
    requires WellFormed(a) && WellFormed(b) && Render(a) == Render(b)
    ensures Same(a, b)
    decreases a, 1
  {
    TextSplit(a, b, [], []);
    if a.Tuple? {
      AllInjective(a.items, b.items);
    } else if a.Set? {
      TextsAreOrdered();
      SortForgetsOrder(TextLeq, RenderAll(a.members), RenderAll(b.members));
      MembersInjective(a.members, b.members);
    }
  }

  lemma {:induction false} AllInjective(xs: seq<Const>, ys: seq<Const>)
    requires AllWellFormed(xs)
    requires AllWellFormed(ys)
    requires RenderAll(xs) == RenderAll(ys)
    ensures SameAll(xs, ys)
    decreases xs, 0
  {
    assert |RenderAll(xs)| == |xs| && |RenderAll(ys)| == |ys|;
    if xs != [] {
      assert RenderAll(xs)[0] == RenderAll(ys)[0];
      RenderInjective(xs[0], ys[0]);
      assert RenderAll(xs)[1..] == RenderAll(xs[1..]) && RenderAll(ys)[1..] == RenderAll(ys[1..]);
      AllInjective(xs[1..], ys[1..]);
    }
  }

  lemma {:induction false} MembersInjective(xs: seq<Const>, ys: seq<Const>)
    requires AllWellFormed(xs)
    requires AllWellFormed(ys)
    requires multiset(RenderAll(xs)) == multiset(RenderAll(ys))
    ensures SameMembers(xs, ys)
    decreases xs, 0
  {
    var tx, ty := RenderAll(xs), RenderAll(ys);
    assert |tx| == |multiset(tx)| == |multiset(ty)| == |ty|;
    if xs != [] {
      assert tx[0] in multiset(tx);
      var j := PickText(ty, tx[0]);
      RenderAllAt(ys, j);
      RenderInjective(xs[0], ys[j]);
      RenderAllExcept(ys, j);
      ExceptMultiset(ty, j);
      ExceptMultiset(tx, 0);
      assert Except(tx, 0) == RenderAll(xs[1..]);
      MembersInjective(xs[1..], Except(ys, j));
    }
  }

  /** The same constant renders the same, whatever order its sets iterate in. */
  lemma {:induction false} RenderIgnoresOrder(a: Const, b: Const)
    requires Same(a, b)
    ensures Render(a) == Render(b)
    decreases a, 1
  {
    if a.Tuple? {
      AllSameRender(a.items, b.items);
    } else if a.Set? {
      MembersSameRender(a.members, b.members);
      TextsAreOrdered();
      SortForgetsOrder(TextLeq, RenderAll(a.members), RenderAll(b.members));
    }
  }

  lemma {:induction false} AllSameRender(xs: seq<Const>, ys: seq<Const>)
    requires SameAll(xs, ys)
    ensures RenderAll(xs) == RenderAll(ys)
    decreases xs, 0
  {
    if xs != [] {
      RenderIgnoresOrder(xs[0], ys[0]);
      AllSameRender(xs[1..], ys[1..]);
    }
  }

  lemma SwapFirst(tx: seq<Bytes>, ty: seq<Bytes>, j: nat)
    requires tx != [] && j < |ty| && tx[0] == ty[j]
    requires multiset(tx[1..]) == multiset(Except(ty, j))
    ensures multiset(tx) == multiset(ty)
  {
    assert tx == [tx[0]] + tx[1..];
    ExceptMultiset(ty, j);
    assert ty[j] in multiset(ty);
  }

  lemma {:induction false} MembersSameRender(xs: seq<Const>, ys: seq<Const>)
    requires SameMembers(xs, ys)
    ensures multiset(RenderAll(xs)) == multiset(RenderAll(ys))
    decreases xs, 0
  {
    if xs == [] {
      assert ys == [];
    } else {
      var j :| 0 <= j < |ys| && Same(xs[0], ys[j]) && SameMembers(xs[1..], Except(ys, j));
      RenderIgnoresOrder(xs[0], ys[j]);
      MembersSameRender(xs[1..], Except(ys, j));
      RenderAllAt(ys, j);
      RenderAllExcept(ys, j);
      assert RenderAll(xs)[1..] == RenderAll(xs[1..]);
      SwapFirst(RenderAll(xs), RenderAll(ys), j);
    }
  }

  /** Two constants render alike exactly when they are the same up to set order. */
  lemma RendersAlikeIffSame(a: Const, b: Const)
    requires WellFormed(a) && WellFormed(b)
    ensures Render(a) == Render(b) <==> Same(a, b)
  {
    if Render(a) == Render(b) {
      RenderInjective(a, b);
    } else if Same(a, b) {
      RenderIgnoresOrder(a, b);
    }
  }

  lemma {:induction false} SameAllAt(xs: seq<Const>, ys: seq<Const>, i: nat)
    requires SameAll(xs, ys) && i < |xs| && AllWellFormed(xs) && AllWellFormed(ys)
    ensures i < |ys| && Render(xs[i]) == Render(ys[i])
  {
    if i > 0 {
      SameAllAt(xs[1..], ys[1..], i - 1);
    } else {
      RenderIgnoresOrder(xs[0], ys[0]);
    }
  }

  /** A rendering shows what kind of constant it is of, a leaf as it is, the items of a
    tuple in their places, and of a set whether it is frozen and how many members it
    has. */
  lemma RenderingsShow(a: Const, b: Const)
    requires WellFormed(a) && WellFormed(b) && Render(a) == Render(b)
    ensures a.Bare? || a.Quoted? || a.Complex? ==> a == b
    ensures a.Tuple? ==>
      && b.Tuple? && |a.items| == |b.items|
      && forall i :: 0 <= i < |a.items| ==> Render(a.items[i]) == Render(b.items[i])
    ensures a.Set? ==> b.Set? && a.frozen == b.frozen && |a.members| == |b.members|
  {
    RendersAlikeIffSame(a, b);
    if a.Tuple? {
      forall i | 0 <= i < |a.items| ensures i < |b.items| && Render(a.items[i]) == Render(b.items[i]) {
        SameAllAt(a.items, b.items, i);
      }
    }
  }
}
