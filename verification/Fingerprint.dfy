/** The function fingerprint (src/cachau/fingerprint.py): the framed stream of a code
  object, and the walk over functions captured through closures and defaults. */
module Fingerprint {
  import opened Bytes
  import opened Constants
  import opened Keys

  /** What a code object contributes: bytecode, names, local names, constants. */
  datatype Code = Code(bytecode: Bytes, names: seq<Bytes>, varnames: seq<Bytes>, consts: seq<CodeConst>)

  datatype CodeConst = Constant(value: Const) | Nested(code: Code)

  /** Identifiers are not empty and hold no comma; constants have a `repr`'s form. */
  predicate IsCode(code: Code)
    decreases code, 0
  {
    AreNames(code.names) && AreNames(code.varnames) && AreConsts(code.consts)
  }

  predicate AreNames(names: seq<Bytes>) {
    names == [] || (names[0] != [] && COMMA !in names[0] && AreNames(names[1..]))
  }

  predicate IsConst(c: CodeConst)
    decreases c, 0
  {
    match c
    case Constant(value) => WellFormed(value)
    case Nested(code) => IsCode(code)
  }

  predicate AreConsts(consts: seq<CodeConst>)
    decreases consts, 1
  {
    consts == [] || (IsConst(consts[0]) && AreConsts(consts[1..]))
  }

  // ------------------------------------------------------------- the framed stream

  /** Each component carries its own length. */
  function Framed(tag: Bytes, payload: Bytes): Bytes {
    tag + (Decimal(|payload|) + ([COLON] + payload))
  }

  function CodeTag(): Bytes { Ascii("|code:") }
  function NamesTag(): Bytes { Ascii("|names:") }
  function VarnamesTag(): Bytes { Ascii("|varnames:") }
  function NestedTag(): Bytes { Ascii("|nested:") }
  function ConstTag(): Bytes { Ascii("|const:") }

  function CodeStream(h: Hash, code: Code): Bytes
    decreases code, 1
  {
    Framed(CodeTag(), code.bytecode)
    + (Framed(NamesTag(), Join(code.names))
       + (Framed(VarnamesTag(), Join(code.varnames)) + ConstsStream(h, code.consts)))
  }

  /** A nested code object is digested on its own and its digest framed. */
  function ConstStream(h: Hash, c: CodeConst): Bytes
    decreases c, 0
  {
    match c
    case Constant(value) => Framed(ConstTag(), Render(value))
    case Nested(code) => Framed(NestedTag(), h(CodeStream(h, code)))
  }

  function ConstsStream(h: Hash, consts: seq<CodeConst>): Bytes
    decreases consts, 1
  {
    if consts == [] then [] else ConstStream(h, consts[0]) + ConstsStream(h, consts[1..])
  }

  /** The streams digested for the code objects nested in this one. */
  function Digested(h: Hash, consts: seq<CodeConst>): set<Bytes>
    decreases consts, 1
  {
    if consts == [] then {} else DigestedBy(h, consts[0]) + Digested(h, consts[1..])
  }

  function DigestedBy(h: Hash, c: CodeConst): set<Bytes>
    decreases c, 0
  {
    match c
    case Constant(_) => {}
    case Nested(code) => {CodeStream(h, code)} + Digested(h, code.consts)
  }

  // ------------------------------------------------------------- when code is the same

  /** Equal bytecode, names, local names, and constants up to the order of sets. */
  ghost predicate SameCode(a: Code, b: Code)
    decreases a, 0
  {
    a.bytecode == b.bytecode && a.names == b.names && a.varnames == b.varnames && SameConsts(a.consts, b.consts)
  }

  ghost predicate SameConst(a: CodeConst, b: CodeConst)
    decreases a, 0
  {
    match a
    case Constant(value) => b.Constant? && Constants.Same(value, b.value)
    case Nested(code) => b.Nested? && SameCode(code, b.code)
  }

  ghost predicate SameConsts(xs: seq<CodeConst>, ys: seq<CodeConst>)
    decreases xs, 1
  {
    |xs| == |ys| && (xs == [] || (SameConst(xs[0], ys[0]) && SameConsts(xs[1..], ys[1..])))
  }

  // ------------------------------------------------------- taking streams apart

  lemma FramedSplit(tag: Bytes, p: Bytes, r: Bytes, q: Bytes, s: Bytes)
    requires Framed(tag, p) + r == Framed(tag, q) + s
    ensures p == q && r == s
  {
    Nest(tag, Decimal(|p|), [COLON] + p, r);
    Nest(tag, Decimal(|q|), [COLON] + q, s);
    FixedSplit(tag, Decimal(|p|) + (([COLON] + p) + r), tag, Decimal(|q|) + (([COLON] + q) + s));
    assert Decimal(|p|) + (([COLON] + p) + r) == Decimal(|p|) + [COLON] + (p + r);
    assert Decimal(|q|) + (([COLON] + q) + s) == Decimal(|q|) + [COLON] + (q + s);
    DecimalSplit(|p|, p + r, |q|, q + s);
    FixedSplit(p, r, q, s);
  }

  lemma {:induction false} NamesSplit(xs: seq<Bytes>, ys: seq<Bytes>)
    requires AreNames(xs) && AreNames(ys) && Behind(xs) == Behind(ys)
    ensures xs == ys
  {
    if xs != [] && ys != [] {
      FixedSplit([COMMA], xs[0] + Behind(xs[1..]), [COMMA], ys[0] + Behind(ys[1..]));
      NameSplit(xs[0], xs[1..], ys[0], ys[1..]);
      NamesSplit(xs[1..], ys[1..]);
      assert xs == [xs[0]] + xs[1..] && ys == [ys[0]] + ys[1..];
    }
  }

  /** With one more comma at the end, every list of names starts with a comma. */
  function AfterComma(names: seq<Bytes>): (r: Bytes)
    ensures Behind(names) + [COMMA] == [COMMA] + r
  {
    if names == [] then [] else
      Nest([COMMA], names[0], Behind(names[1..]), [COMMA]);
      names[0] + (Behind(names[1..]) + [COMMA])
  }

  /** The first name ends at the first comma. */
  lemma NameSplit(x: Bytes, xs: seq<Bytes>, y: Bytes, ys: seq<Bytes>)
    requires COMMA !in x && COMMA !in y && x + Behind(xs) == y + Behind(ys)
    ensures x == y && Behind(xs) == Behind(ys)
  {
    Associate(x, Behind(xs), [COMMA]);
    Associate(y, Behind(ys), [COMMA]);
    Associate(x, [COMMA], AfterComma(xs));
    Associate(y, [COMMA], AfterComma(ys));
    DelimitedSplit(x, AfterComma(xs), y, AfterComma(ys), COMMA);
    FixedSplit(x, Behind(xs), y, Behind(ys));
  }

  lemma JoinedNamesSplit(xs: seq<Bytes>, ys: seq<Bytes>)
    requires AreNames(xs) && AreNames(ys) && Join(xs) == Join(ys)
    ensures xs == ys
  {
    if xs != [] && ys != [] {
      NameSplit(xs[0], xs[1..], ys[0], ys[1..]);
      NamesSplit(xs[1..], ys[1..]);
      assert xs == [xs[0]] + xs[1..] && ys == [ys[0]] + ys[1..];
    }
  }

  lemma TagsDiffer(p: Bytes, r: Bytes, q: Bytes, s: Bytes)
    ensures Framed(NestedTag(), p) + r != Framed(ConstTag(), q) + s
  {
    var a, b := Framed(NestedTag(), p) + r, Framed(ConstTag(), q) + s;
    assert NestedTag()[1] == 110 && ConstTag()[1] == 99;
    assert a[1] == NestedTag()[1] && b[1] == ConstTag()[1];
  }

  /** What may follow a code object's stream: nothing, or a section of the function. */
  predicate EndsCode(r: Bytes) {
    r == [] || (|r| >= 3 && r[0] == 124 && r[1] != 110 && (r[1] == 99 ==> r[2] == 108))
  }

  /** Code objects whose streams agree up to what follows agree on everything up to set
    order, when the digest separates the nested streams hashed for them; and the same
    follows. */
  lemma {:induction false} CodeSplit(h: Hash, streams: set<Bytes>, a: Code, r: Bytes, b: Code, s: Bytes)
    requires IsCode(a) && IsCode(b) && Separates(h, streams)
    requires Digested(h, a.consts) <= streams && Digested(h, b.consts) <= streams
    requires EndsCode(r) && EndsCode(s) && CodeStream(h, a) + r == CodeStream(h, b) + s
    ensures SameCode(a, b) && r == s
    decreases a, 1
  {
    CodeParts(h, a, r);
    CodeParts(h, b, s);
    var ra, rb := ConstsStream(h, a.consts) + r, ConstsStream(h, b.consts) + s;
    var va, vb := Framed(VarnamesTag(), Join(a.varnames)) + ra, Framed(VarnamesTag(), Join(b.varnames)) + rb;
    FramedSplit(CodeTag(), a.bytecode, Framed(NamesTag(), Join(a.names)) + va,
                b.bytecode, Framed(NamesTag(), Join(b.names)) + vb);
    FramedSplit(NamesTag(), Join(a.names), va, Join(b.names), vb);
    FramedSplit(VarnamesTag(), Join(a.varnames), ra, Join(b.varnames), rb);
    JoinedNamesSplit(a.names, b.names);
    JoinedNamesSplit(a.varnames, b.varnames);
    ConstsSplit(h, streams, a.consts, r, b.consts, s);
  }

  lemma CodeParts(h: Hash, a: Code, r: Bytes)
    ensures CodeStream(h, a) + r
         == Framed(CodeTag(), a.bytecode)
            + (Framed(NamesTag(), Join(a.names))
               + (Framed(VarnamesTag(), Join(a.varnames)) + (ConstsStream(h, a.consts) + r)))
  {
    Chain([], Framed(CodeTag(), a.bytecode), Framed(NamesTag(), Join(a.names)),
          Framed(VarnamesTag(), Join(a.varnames)), ConstsStream(h, a.consts));
    Associate(Framed(CodeTag(), a.bytecode),
              Framed(NamesTag(), Join(a.names))
              + (Framed(VarnamesTag(), Join(a.varnames)) + ConstsStream(h, a.consts)), r);
    Nest(Framed(NamesTag(), Join(a.names)), Framed(VarnamesTag(), Join(a.varnames)), ConstsStream(h, a.consts), r);
  }

  /** Code objects with equal streams agree on everything up to set order. */
  lemma {:induction false} CodeInjective(h: Hash, streams: set<Bytes>, a: Code, b: Code)
    requires IsCode(a) && IsCode(b) && Separates(h, streams)
    requires Digested(h, a.consts) <= streams && Digested(h, b.consts) <= streams
    requires CodeStream(h, a) == CodeStream(h, b)
    ensures SameCode(a, b)
    decreases a, 2
  {
    CodeSplit(h, streams, a, [], b, []);
  }

  lemma {:induction false} ConstSplit(h: Hash, streams: set<Bytes>, x: CodeConst, r: Bytes, y: CodeConst, s: Bytes)
    requires IsConst(x) && IsConst(y) && Separates(h, streams)
    requires DigestedBy(h, x) <= streams && DigestedBy(h, y) <= streams
    requires ConstStream(h, x) + r == ConstStream(h, y) + s
    ensures SameConst(x, y) && r == s
    decreases x, 0
  {
    if x.Nested? && y.Nested? {
      FramedSplit(NestedTag(), h(CodeStream(h, x.code)), r, h(CodeStream(h, y.code)), s);
      CodeInjective(h, streams, x.code, y.code);
    } else if x.Nested? {
      TagsDiffer(h(CodeStream(h, x.code)), r, Render(y.value), s);
    } else if y.Nested? {
      TagsDiffer(h(CodeStream(h, y.code)), s, Render(x.value), r);
    } else {
      FramedSplit(ConstTag(), Render(x.value), r, Render(y.value), s);
      RendersAlikeIffSame(x.value, y.value);
    }
  }

  lemma {:induction false} ConstsSplit(
      h: Hash, streams: set<Bytes>, xs: seq<CodeConst>, r: Bytes, ys: seq<CodeConst>, s: Bytes)
    requires AreConsts(xs) && AreConsts(ys) && Separates(h, streams)
    requires Digested(h, xs) <= streams && Digested(h, ys) <= streams
    requires EndsCode(r) && EndsCode(s) && ConstsStream(h, xs) + r == ConstsStream(h, ys) + s
    ensures SameConsts(xs, ys) && r == s
    decreases xs, 1
  {
    ConstsStart(h, xs, r);
    ConstsStart(h, ys, s);
    if xs != [] && ys != [] {
      var rx, ry := ConstsStream(h, xs[1..]), ConstsStream(h, ys[1..]);
      Associate(ConstStream(h, xs[0]), rx, r);
      Associate(ConstStream(h, ys[0]), ry, s);
      ConstSplit(h, streams, xs[0], rx + r, ys[0], ry + s);
      ConstsSplit(h, streams, xs[1..], r, ys[1..], s);
    } else if xs == [] && ys == [] {
      assert [] + r == r && [] + s == s;
    }
  }

  /** A constant's section begins as no section of a function does. */
  lemma ConstsStart(h: Hash, xs: seq<CodeConst>, r: Bytes)
    requires EndsCode(r)
    ensures EndsCode(ConstsStream(h, xs) + r) <==> xs == []
  {
    if xs == [] {
      assert ConstsStream(h, xs) + r == r;
    } else {
      var all := ConstsStream(h, xs) + r;
      var tag := if xs[0].Nested? then NestedTag() else ConstTag();
      assert NestedTag()[0] == 124 && NestedTag()[1] == 110;
      assert ConstTag()[0] == 124 && ConstTag()[1] == 99 && ConstTag()[2] == 111;
      assert all[0] == tag[0] && all[1] == tag[1] && all[2] == tag[2];
    }
  }

  /** The order sets iterate in does not reach the stream. */
  lemma {:induction false} CodeIgnoresOrder(h: Hash, a: Code, b: Code)
    requires IsCode(a) && IsCode(b) && SameCode(a, b)
    ensures CodeStream(h, a) == CodeStream(h, b)
    decreases a, 0
  {
    ConstsIgnoreOrder(h, a.consts, b.consts);
  }

  lemma {:induction false} ConstIgnoresOrder(h: Hash, x: CodeConst, y: CodeConst)
    requires IsConst(x) && IsConst(y) && SameConst(x, y)
    ensures ConstStream(h, x) == ConstStream(h, y)
    decreases x, 0
  {
    match x {
      case Constant(value) => RendersAlikeIffSame(value, y.value);
      case Nested(code) => CodeIgnoresOrder(h, code, y.code);
    }
  }

  lemma {:induction false} ConstsIgnoreOrder(h: Hash, xs: seq<CodeConst>, ys: seq<CodeConst>)
    requires AreConsts(xs) && AreConsts(ys) && SameConsts(xs, ys)
    ensures ConstsStream(h, xs) == ConstsStream(h, ys)
    decreases xs, 0
  {
    if xs != [] {
      ConstIgnoresOrder(h, xs[0], ys[0]);
      ConstsIgnoreOrder(h, xs[1..], ys[1..]);
    }
  }

  /** Two code objects feed equal streams exactly when they agree on bytecode, names,
    local names and, recursively, constants up to set order. */
  lemma CodeStreamsEqualIffSame(h: Hash, a: Code, b: Code)
    requires IsCode(a) && IsCode(b)
    requires Separates(h, Digested(h, a.consts) + Digested(h, b.consts))
    ensures CodeStream(h, a) == CodeStream(h, b) <==> SameCode(a, b)
  {
    if CodeStream(h, a) == CodeStream(h, b) {
      CodeInjective(h, Digested(h, a.consts) + Digested(h, b.consts), a, b);
    } else if SameCode(a, b) {
      CodeIgnoresOrder(h, a, b);
    }
  }

  lemma {:induction false} SameConstsAt(h: Hash, xs: seq<CodeConst>, ys: seq<CodeConst>, i: nat)
    requires AreConsts(xs) && AreConsts(ys) && SameConsts(xs, ys) && i < |xs|
    ensures i < |ys| && (xs[i].Nested? <==> ys[i].Nested?)
    ensures xs[i].Nested? ==> CodeStream(h, xs[i].code) == CodeStream(h, ys[i].code)
    ensures xs[i].Constant? ==> Render(xs[i].value) == Render(ys[i].value)
  {
    if i > 0 {
      SameConstsAt(h, xs[1..], ys[1..], i - 1);
    } else {
      match xs[0] {
        case Constant(value) => RendersAlikeIffSame(value, ys[0].value);
        case Nested(code) => CodeIgnoresOrder(h, code, ys[0].code);
      }
    }
  }

  /** A stream shows the bytecode, the names, the local names, how many constants there
    are, and each of them in its place: a value's rendering, or a nested code object. */
  lemma CodeStreamsShow(h: Hash, a: Code, b: Code)
    requires IsCode(a) && IsCode(b)
    requires Separates(h, Digested(h, a.consts) + Digested(h, b.consts)) && CodeStream(h, a) == CodeStream(h, b)
    ensures a.bytecode == b.bytecode && a.names == b.names && a.varnames == b.varnames && |a.consts| == |b.consts|
    ensures forall i :: 0 <= i < |a.consts| ==>
      && (a.consts[i].Nested? <==> b.consts[i].Nested?)
      && (a.consts[i].Nested? ==> CodeStream(h, a.consts[i].code) == CodeStream(h, b.consts[i].code))
      && (a.consts[i].Constant? ==> Render(a.consts[i].value) == Render(b.consts[i].value))
  {
    CodeStreamsEqualIffSame(h, a, b);
    SameLengths(a.consts, b.consts);
    forall i | 0 <= i < |a.consts|
      ensures i < |b.consts| && (a.consts[i].Nested? <==> b.consts[i].Nested?)
        && (a.consts[i].Nested? ==> CodeStream(h, a.consts[i].code) == CodeStream(h, b.consts[i].code))
        && (a.consts[i].Constant? ==> Render(a.consts[i].value) == Render(b.consts[i].value))
    {
      SameConstsAt(h, a.consts, b.consts, i);
    }
  }

  lemma SameLengths(xs: seq<CodeConst>, ys: seq<CodeConst>)
    requires SameConsts(xs, ys)
    ensures |xs| == |ys|
  {
  }

  // ------------------------------------------------- the stream as it is fed

  method FeedFramed(hasher: Hasher, tag: Bytes, payload: Bytes)
    modifies hasher
    ensures hasher.fed == old(hasher.fed) + Framed(tag, payload)
  {
    hasher.Update(tag);
    hasher.Update(Decimal(|payload|));
    hasher.Update([COLON]);
    hasher.Update(payload);
    ghost var was := old(hasher.fed);
    assert ((was + tag) + Decimal(|payload|) + [COLON]) + payload == was + Framed(tag, payload);
  }

  lemma Chain(w: Bytes, a: Bytes, b: Bytes, c: Bytes, d: Bytes)
    ensures (((w + a) + b) + c) + d == w + (a + (b + (c + d)))
  {
    Associate((w + a) + b, c, d);
    Associate(w + a, b, c + d);
    Associate(w, a, b + (c + d));
  }

  /** `_feed_code`: a nested code object goes through a hasher of its own. */
  method FeedCode(h: Hash, hasher: Hasher, code: Code)
    modifies hasher
    ensures hasher.fed == old(hasher.fed) + CodeStream(h, code)
    decreases code, 0
  {
    ghost var was := hasher.fed;
    FeedFramed(hasher, CodeTag(), code.bytecode);
    FeedFramed(hasher, NamesTag(), Join(code.names));
    FeedFramed(hasher, VarnamesTag(), Join(code.varnames));
    FeedConsts(h, hasher, code.consts);
    Chain(was, Framed(CodeTag(), code.bytecode), Framed(NamesTag(), Join(code.names)),
          Framed(VarnamesTag(), Join(code.varnames)), ConstsStream(h, code.consts));
  }

  lemma ConstsStep(h: Hash, acc: Bytes, consts: seq<CodeConst>, i: nat)
    requires i < |consts|
    ensures acc + ConstsStream(h, consts[i..]) == (acc + ConstStream(h, consts[i])) + ConstsStream(h, consts[i + 1..])
  {
    assert consts[i..][0] == consts[i] && consts[i..][1..] == consts[i + 1..];
    Associate(acc, ConstStream(h, consts[i]), ConstsStream(h, consts[i + 1..]));
  }

  method FeedConsts(h: Hash, hasher: Hasher, consts: seq<CodeConst>)
    modifies hasher
    ensures hasher.fed == old(hasher.fed) + ConstsStream(h, consts)
    decreases consts, 1
  {
    ghost var whole := hasher.fed + ConstsStream(h, consts);
    assert consts[0..] == consts;
    for i := 0 to |consts|
      invariant whole == hasher.fed + ConstsStream(h, consts[i..])
    {
      ConstsStep(h, hasher.fed, consts, i);
      FeedConst(h, hasher, consts[i]);
    }
    assert consts[|consts|..] == [];
    assert hasher.fed + [] == hasher.fed;
  }

  method FeedConst(h: Hash, hasher: Hasher, c: CodeConst)
    modifies hasher
    ensures hasher.fed == old(hasher.fed) + ConstStream(h, c)
    decreases c, 1
  {
    match c {
      case Constant(value) => FeedFramed(hasher, ConstTag(), Render(value));
      case Nested(code) =>
        var nested := new Hasher();
        FeedCode(h, nested, code);
        assert [] + CodeStream(h, code) == CodeStream(h, code);
        FeedFramed(hasher, NestedTag(), h(nested.fed));
    }
  }
}
