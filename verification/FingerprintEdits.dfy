/** What a function's fingerprint shows (src/cachau/fingerprint.py): its code, in any
  case; and, between versions of functions that capture each other alike, every edit of
  code, captured value, default or compile option of any function reached. */
module FingerprintEdits {
  import opened Bytes
  import opened Fingerprint
  import opened FingerprintWalk
  import opened Graphs
  import opened Keys

  /** Every function's code has the form of code. */
  predicate HasCode(g: Functions) {
    forall n :: n in g ==> IsCode(g[n].code)
  }

  // ------------------------------------------------------- the streams digested

  function BoundDigested(h: Hash, g: Functions, b: Binding, seen: set<Id>): set<Bytes>
    decreases g.Keys - seen, 1, 0
  {
    if b.Object? && b.id in g && b.id !in seen then WalkDigested(h, g, b.id, seen) else {}
  }

  function CapturesDigested(h: Hash, g: Functions, captures: seq<Capture>, seen: set<Id>): set<Bytes>
    decreases g.Keys - seen, 2, |captures|
  {
    if captures == [] then {}
    else
      var bound := captures[0].bound;
      BoundDigested(h, g, bound, seen) + CapturesDigested(h, g, captures[1..], BoundStream(h, g, bound, seen).1)
  }

  function DefaultsDigested(h: Hash, g: Functions, defaults: seq<Binding>, seen: set<Id>): set<Bytes>
    decreases g.Keys - seen, 2, |defaults|
  {
    if defaults == [] then {}
    else
      BoundDigested(h, g, defaults[0], seen)
      + DefaultsDigested(h, g, defaults[1..], BoundStream(h, g, defaults[0], seen).1)
  }

  /** The streams a walk digests: the function's, its nested code objects', and those of
    the functions it comes to. */
  function WalkDigested(h: Hash, g: Functions, id: Id, seen: set<Id>): set<Bytes>
    requires id in g && id !in seen
    decreases g.Keys - seen, 0, 0
  {
    var f, s := g[id], seen + Own(g, id);
    assert id in g.Keys - seen;
    var t := CapturesStream(h, g, f.closure, s).1;
    var u := DefaultsStream(h, g, f.defaults, 0, t).1;
    {FunctionStream(h, g, id, seen).0} + Digested(h, f.code.consts)
    + CapturesDigested(h, g, f.closure, s) + DefaultsDigested(h, g, f.defaults, t)
    + CapturesDigested(h, g, f.kwdefaults, u)
  }

  // ------------------------------------------------------------------- hexadecimal

  lemma {:induction false} HexInjective(x: Bytes, y: Bytes)
    requires |x| == |y| && Hex(x) == Hex(y)
    ensures x == y
  {
    if x != [] {
      var a, b := [HexDigit(x[0] / 16), HexDigit(x[0] % 16)], [HexDigit(y[0] / 16), HexDigit(y[0] % 16)];
      FixedSplit(a, Hex(x[1..]), b, Hex(y[1..]));
      assert a[0] == b[0] && a[1] == b[1];
      HexInjective(x[1..], y[1..]);
      assert x == [x[0]] + x[1..] && y == [y[0]] + y[1..];
    }
  }

  lemma {:induction false} HexLength(x: Bytes)
    ensures |Hex(x)| == 2 * |x|
  {
    if x != [] {
      HexLength(x[1..]);
    }
  }

  /** Equal hexadecimal digests of streams the digest tells apart. */
  lemma DigestsAgree(h: Hash, streams: set<Bytes>, x: Bytes, y: Bytes)
    requires Separates(h, streams) && x in streams && y in streams
    ensures Hex(h(x)) == Hex(h(y)) <==> x == y
    ensures |Hex(h(x))| == |Hex(h(y))| == 64
  {
    HexLength(h(x));
    HexLength(h(y));
    if Hex(h(x)) == Hex(h(y)) {
      HexInjective(h(x), h(y));
    }
  }

  // -------------------------------------------------------------- the code shows

  function Section(text: string, present: bool, body: Bytes): Bytes {
    Header(text, present) + body
  }

  /** What a function feeds behind its code. */
  function Sections(f: FunctionObject, closure: Bytes, defaults: Bytes, kwdefaults: Bytes): Bytes {
    Section("|closure:", f.closure != [], closure)
    + (Section("|defaults:", f.defaults != [], defaults)
       + (Section("|kwdefaults:", f.kwdefaults != [], kwdefaults) + Tail(f)))
  }

  function BehindCode(h: Hash, g: Functions, id: Id, seen: set<Id>): Bytes
    requires id in g && id !in seen
  {
    var f := g[id];
    var closure := CapturesStream(h, g, f.closure, seen + Own(g, id));
    var defaults := DefaultsStream(h, g, f.defaults, 0, closure.1);
    var kwdefaults := CapturesStream(h, g, f.kwdefaults, defaults.1);
    Sections(f, closure.0, defaults.0, kwdefaults.0)
  }

  lemma StreamParts(h: Hash, g: Functions, id: Id, seen: set<Id>)
    requires id in g && id !in seen
    ensures FunctionStream(h, g, id, seen).0 == CodeStream(h, g[id].code) + BehindCode(h, g, id, seen)
  {
    var f := g[id];
    var closure := CapturesStream(h, g, f.closure, seen + Own(g, id));
    var defaults := DefaultsStream(h, g, f.defaults, 0, closure.1);
    var kwdefaults := CapturesStream(h, g, f.kwdefaults, defaults.1);
    Chain(CodeStream(h, f.code), Section("|closure:", f.closure != [], closure.0),
          Section("|defaults:", f.defaults != [], defaults.0),
          Section("|kwdefaults:", f.kwdefaults != [], kwdefaults.0), Tail(f));
  }

  /** A stream behind a section's header, or in its stead. */
  lemma SectionEnds(text: string, present: bool, body: Bytes, r: Bytes)
    requires text == "|closure:" || text == "|defaults:" || text == "|kwdefaults:"
    requires EndsCode(r) && (!present ==> body == [])
    ensures EndsCode(Section(text, present, body) + r)
  {
    if present {
      var all := Section(text, present, body) + r;
      assert all[0] == Ascii(text)[0] && all[1] == Ascii(text)[1] && all[2] == Ascii(text)[2];
    } else {
      assert Section(text, present, body) + r == r;
    }
  }

  lemma TailEnds(f: FunctionObject)
    ensures EndsCode(Tail(f))
  {
    if f.jit.Some? {
      var all := Tail(f);
      assert all[0] == Ascii("|target-options:")[0] && all[1] == Ascii("|target-options:")[1];
    }
  }

  lemma SectionsEnd(h: Hash, g: Functions, id: Id, seen: set<Id>)
    requires id in g && id !in seen
    ensures EndsCode(BehindCode(h, g, id, seen))
  {
    var f := g[id];
    var closure := CapturesStream(h, g, f.closure, seen + Own(g, id));
    var defaults := DefaultsStream(h, g, f.defaults, 0, closure.1);
    var kwdefaults := CapturesStream(h, g, f.kwdefaults, defaults.1);
    TailEnds(f);
    SectionEnds("|kwdefaults:", f.kwdefaults != [], kwdefaults.0, Tail(f));
    var k := Section("|kwdefaults:", f.kwdefaults != [], kwdefaults.0) + Tail(f);
    SectionEnds("|defaults:", f.defaults != [], defaults.0, k);
    SectionEnds("|closure:", f.closure != [], closure.0, Section("|defaults:", f.defaults != [], defaults.0) + k);
  }

  lemma StreamsShowCode(
      h: Hash, streams: set<Bytes>, a: Functions, i: Id, b: Functions, j: Id, seen: set<Id>, seen': set<Id>)
    requires i in a && i !in seen && j in b && j !in seen' && IsCode(a[i].code) && IsCode(b[j].code)
    requires Separates(h, streams)
    requires Digested(h, a[i].code.consts) <= streams && Digested(h, b[j].code.consts) <= streams
    requires FunctionStream(h, a, i, seen).0 == FunctionStream(h, b, j, seen').0
    ensures SameCode(a[i].code, b[j].code) && BehindCode(h, a, i, seen) == BehindCode(h, b, j, seen')
  {
    StreamParts(h, a, i, seen);
    StreamParts(h, b, j, seen');
    SectionsEnd(h, a, i, seen);
    SectionsEnd(h, b, j, seen');
    CodeSplit(h, streams, a[i].code, BehindCode(h, a, i, seen), b[j].code, BehindCode(h, b, j, seen'));
  }

  /** Whatever two functions capture, they have one fingerprint only if they have the
    same code, and feed the same behind it. */
  lemma FingerprintShowsCode(h: Hash, a: Functions, i: Id, b: Functions, j: Id)
    requires i in a && j in b && IsCode(a[i].code) && IsCode(b[j].code)
    requires Separates(h, WalkDigested(h, a, i, {}) + WalkDigested(h, b, j, {}))
    requires Walk(h, a, i, {}).0 == Walk(h, b, j, {}).0
    ensures SameCode(a[i].code, b[j].code) && BehindCode(h, a, i, {}) == BehindCode(h, b, j, {})
  {
    var streams := WalkDigested(h, a, i, {}) + WalkDigested(h, b, j, {});
    DigestsAgree(h, streams, FunctionStream(h, a, i, {}).0, FunctionStream(h, b, j, {}).0);
    StreamsShowCode(h, streams, a, i, b, j, {}, {});
  }

  // ------------------------------------------------------------- versions of functions

  /** The same kind of capture: a digested value, an unbound cell, or the same object. */
  predicate Alike(x: Binding, y: Binding) {
    if x.Digestible? then y.Digestible? else x == y
  }

  predicate CapturesAlike(xs: seq<Capture>, ys: seq<Capture>) {
    if xs == [] then ys == []
    else ys != [] && xs[0].name == ys[0].name && Alike(xs[0].bound, ys[0].bound) && CapturesAlike(xs[1..], ys[1..])
  }

  predicate DefaultsAlike(xs: seq<Binding>, ys: seq<Binding>) {
    if xs == [] then ys == [] else ys != [] && Alike(xs[0], ys[0]) && DefaultsAlike(xs[1..], ys[1..])
  }

  /** Versions of a function that capture alike; code, values and options may differ. */
  predicate Versions(x: FunctionObject, y: FunctionObject) {
    && CapturesAlike(x.closure, y.closure) && DefaultsAlike(x.defaults, y.defaults)
    && CapturesAlike(x.kwdefaults, y.kwdefaults)
    && (x.jit.Some? <==> y.jit.Some?) && (x.jit.Some? ==> x.jit.value.pyFunc == y.jit.value.pyFunc)
  }

  predicate AllVersions(a: Functions, b: Functions) {
    a.Keys == b.Keys && forall n :: n in a ==> Versions(a[n], b[n])
  }

  /** The same code, captured values, defaults and compile options. */
  ghost predicate Unedited(x: FunctionObject, y: FunctionObject) {
    && SameCode(x.code, y.code) && x.closure == y.closure && x.defaults == y.defaults && x.kwdefaults == y.kwdefaults
    && Tail(x) == Tail(y)
  }

  ghost predicate UneditedIn(a: Functions, b: Functions, ids: set<Id>) {
    forall n :: n in ids && n in a && n in b ==> Unedited(a[n], b[n])
  }

  ghost predicate Comparable(h: Hash, streams: set<Bytes>, a: Functions, b: Functions) {
    AllVersions(a, b) && Compiled(a) && Compiled(b) && HasCode(a) && HasCode(b) && Separates(h, streams)
  }

  /** Two results of a walk: the same functions seen, equally long streams, and equal
    ones exactly when nothing named was edited nor any new function. */
  ghost predicate Tells(
      a: Functions, b: Functions, seen: set<Id>, r: (Bytes, set<Id>), r': (Bytes, set<Id>), same: bool)
  {
    r.1 == r'.1 && |r.0| == |r'.0| && (r.0 == r'.0 <==> same && UneditedIn(a, b, r.1 - seen))
  }

  lemma {:induction false} BoundTells(
      h: Hash, streams: set<Bytes>, a: Functions, b: Functions, x: Binding, y: Binding, seen: set<Id>)
    requires Comparable(h, streams, a, b) && Alike(x, y)
    requires BoundDigested(h, a, x, seen) <= streams && BoundDigested(h, b, y, seen) <= streams
    ensures Tells(a, b, seen, BoundStream(h, a, x, seen), BoundStream(h, b, y, seen), x == y)
    decreases a.Keys - seen, 1, 0
  {
    if x.Object? && x.id in a && x.id !in seen {
      WalkTells(h, streams, a, b, x.id, seen);
      var inner, inner' := Walk(h, a, x.id, seen).0, Walk(h, b, x.id, seen).0;
      if Ascii("<function:") + inner + Ascii(">") == Ascii("<function:") + inner' + Ascii(">") {
        Associate(Ascii("<function:"), inner, Ascii(">"));
        Associate(Ascii("<function:"), inner', Ascii(">"));
        FixedSplit(Ascii("<function:"), inner + Ascii(">"), Ascii("<function:"), inner' + Ascii(">"));
        FixedSplit(inner, Ascii(">"), inner', Ascii(">"));
      }
    }
  }

  /** Two parts, each of which tells. */
  lemma BothTell(a: Functions, b: Functions, seen: set<Id>, p: (Bytes, set<Id>), p': (Bytes, set<Id>), same: bool,
      q: (Bytes, set<Id>), q': (Bytes, set<Id>), more: bool)
    requires Tells(a, b, seen, p, p', same) && Tells(a, b, p.1, q, q', more) && seen <= p.1 <= q.1
    ensures Tells(a, b, seen, (p.0 + q.0, q.1), (p'.0 + q'.0, q'.1), same && more)
  {
    if p.0 + q.0 == p'.0 + q'.0 {
      FixedSplit(p.0, q.0, p'.0, q'.0);
    }
    assert UneditedIn(a, b, q.1 - seen) <==> UneditedIn(a, b, p.1 - seen) && UneditedIn(a, b, q.1 - p.1);
  }

  /** A common part in front changes nothing. */
  lemma FrontTells(a: Functions, b: Functions, seen: set<Id>, front: Bytes, r: (Bytes, set<Id>), r': (Bytes, set<Id>),
      same: bool)
    requires Tells(a, b, seen, r, r', same)
    ensures Tells(a, b, seen, (front + r.0, r.1), (front + r'.0, r'.1), same)
  {
    if front + r.0 == front + r'.0 {
      FixedSplit(front, r.0, front, r'.0);
    }
  }

  lemma {:induction false} CapturesTell(
      h: Hash, streams: set<Bytes>, a: Functions, b: Functions, xs: seq<Capture>, ys: seq<Capture>, seen: set<Id>)
    requires Comparable(h, streams, a, b) && CapturesAlike(xs, ys)
    requires CapturesDigested(h, a, xs, seen) <= streams && CapturesDigested(h, b, ys, seen) <= streams
    ensures Tells(a, b, seen, CapturesStream(h, a, xs, seen), CapturesStream(h, b, ys, seen), xs == ys)
    decreases a.Keys - seen, 2, |xs|
  {
    if xs != [] {
      var p, p' := BoundStream(h, a, xs[0].bound, seen), BoundStream(h, b, ys[0].bound, seen);
      BoundTells(h, streams, a, b, xs[0].bound, ys[0].bound, seen);
      CapturesTell(h, streams, a, b, xs[1..], ys[1..], p.1);
      FrontTells(a, b, seen, xs[0].name + Ascii("="), p, p', xs[0].bound == ys[0].bound);
      BothTell(a, b, seen, (xs[0].name + Ascii("=") + p.0, p.1), (ys[0].name + Ascii("=") + p'.0, p'.1),
               xs[0].bound == ys[0].bound, CapturesStream(h, a, xs[1..], p.1), CapturesStream(h, b, ys[1..], p.1),
               xs[1..] == ys[1..]);
      assert xs == [xs[0]] + xs[1..] && ys == [ys[0]] + ys[1..];
    }
  }

  lemma {:induction false} DefaultsTell(
      h: Hash, streams: set<Bytes>, a: Functions, b: Functions, xs: seq<Binding>, ys: seq<Binding>, index: nat,
      seen: set<Id>)
    requires Comparable(h, streams, a, b) && DefaultsAlike(xs, ys)
    requires DefaultsDigested(h, a, xs, seen) <= streams && DefaultsDigested(h, b, ys, seen) <= streams
    ensures Tells(a, b, seen, DefaultsStream(h, a, xs, index, seen), DefaultsStream(h, b, ys, index, seen), xs == ys)
    decreases a.Keys - seen, 2, |xs|
  {
    if xs != [] {
      var p, p' := BoundStream(h, a, xs[0], seen), BoundStream(h, b, ys[0], seen);
      BoundTells(h, streams, a, b, xs[0], ys[0], seen);
      DefaultsTell(h, streams, a, b, xs[1..], ys[1..], index + 1, p.1);
      FrontTells(a, b, seen, Decimal(index) + Ascii("="), p, p', xs[0] == ys[0]);
      BothTell(a, b, seen, (Decimal(index) + Ascii("=") + p.0, p.1), (Decimal(index) + Ascii("=") + p'.0, p'.1),
               xs[0] == ys[0], DefaultsStream(h, a, xs[1..], index + 1, p.1),
               DefaultsStream(h, b, ys[1..], index + 1, p.1), xs[1..] == ys[1..]);
      assert xs == [xs[0]] + xs[1..] && ys == [ys[0]] + ys[1..];
    }
  }

  /** The sections behind the code. */
  lemma {:induction false} SectionsTell(h: Hash, streams: set<Bytes>, a: Functions, b: Functions, id: Id, seen: set<Id>)
    requires Comparable(h, streams, a, b) && id in a && id !in seen
    requires WalkDigested(h, a, id, seen) <= streams && WalkDigested(h, b, id, seen) <= streams
    ensures FunctionStream(h, a, id, seen).1 == FunctionStream(h, b, id, seen).1
    ensures var x, y := a[id], b[id];
      BehindCode(h, a, id, seen) == BehindCode(h, b, id, seen)
      <==> x.closure == y.closure && x.defaults == y.defaults && x.kwdefaults == y.kwdefaults && Tail(x) == Tail(y)
           && UneditedIn(a, b, FunctionStream(h, a, id, seen).1 - (seen + Own(a, id)))
    decreases a.Keys - seen, 0, 0
  {
    var x, y, s := a[id], b[id], seen + Own(a, id);
    assert id in a.Keys - seen && Own(b, id) == Own(a, id);
    var c, c' := CapturesStream(h, a, x.closure, s), CapturesStream(h, b, y.closure, s);
    CapturesTell(h, streams, a, b, x.closure, y.closure, s);
    var d, d' := DefaultsStream(h, a, x.defaults, 0, c.1), DefaultsStream(h, b, y.defaults, 0, c.1);
    DefaultsTell(h, streams, a, b, x.defaults, y.defaults, 0, c.1);
    var k, k' := CapturesStream(h, a, x.kwdefaults, d.1), CapturesStream(h, b, y.kwdefaults, d.1);
    CapturesTell(h, streams, a, b, x.kwdefaults, y.kwdefaults, d.1);
    SectionsSplit(a, b, s, x, y, c, c', d, d', k, k');
  }

  lemma SectionsSplit(a: Functions, b: Functions, s: set<Id>, x: FunctionObject, y: FunctionObject,
      c: (Bytes, set<Id>), c': (Bytes, set<Id>), d: (Bytes, set<Id>), d': (Bytes, set<Id>),
      k: (Bytes, set<Id>), k': (Bytes, set<Id>))
    requires Versions(x, y) && s <= c.1 <= d.1 <= k.1
    requires Tells(a, b, s, c, c', x.closure == y.closure) && Tells(a, b, c.1, d, d', x.defaults == y.defaults)
    requires Tells(a, b, d.1, k, k', x.kwdefaults == y.kwdefaults)
    ensures Sections(x, c.0, d.0, k.0) == Sections(y, c'.0, d'.0, k'.0)
      <==> x.closure == y.closure && x.defaults == y.defaults && x.kwdefaults == y.kwdefaults && Tail(x) == Tail(y)
           && UneditedIn(a, b, k.1 - s)
  {
    var hc, hd, hk := Header("|closure:", x.closure != []), Header("|defaults:", x.defaults != []),
                      Header("|kwdefaults:", x.kwdefaults != []);
    FrontTells(a, b, s, hc, c, c', x.closure == y.closure);
    FrontTells(a, b, c.1, hd, d, d', x.defaults == y.defaults);
    FrontTells(a, b, d.1, hk, k, k', x.kwdefaults == y.kwdefaults);
    if Sections(x, c.0, d.0, k.0) == Sections(y, c'.0, d'.0, k'.0) {
      FixedSplit(hc + c.0, (hd + d.0) + ((hk + k.0) + Tail(x)), hc + c'.0, (hd + d'.0) + ((hk + k'.0) + Tail(y)));
      FixedSplit(hd + d.0, (hk + k.0) + Tail(x), hd + d'.0, (hk + k'.0) + Tail(y));
      FixedSplit(hk + k.0, Tail(x), hk + k'.0, Tail(y));
    }
    assert UneditedIn(a, b, k.1 - s)
      <==> UneditedIn(a, b, c.1 - s) && UneditedIn(a, b, d.1 - c.1) && UneditedIn(a, b, k.1 - d.1);
  }

  /** A dispatcher is edited exactly when its Python function or its options are. */
  lemma OwnUnedited(a: Functions, b: Functions, id: Id, seen: set<Id>, after: set<Id>)
    requires AllVersions(a, b) && Compiled(a) && Compiled(b) && id in a && id !in seen && seen + Own(a, id) <= after
    requires UneditedIn(a, b, after - (seen + Own(a, id)))
    ensures UneditedIn(a, b, after - seen) <==> Unedited(a[id], b[id])
  {
    if Unedited(a[id], b[id]) {
      forall n | n in after - seen && n in a && n in b ensures Unedited(a[n], b[n]) {
        if n in Own(a, id) && n != id {
          assert a[n].jit.None? && b[n].jit.None?;
        }
      }
    }
  }

  lemma {:induction false} WalkTells(h: Hash, streams: set<Bytes>, a: Functions, b: Functions, id: Id, seen: set<Id>)
    requires Comparable(h, streams, a, b) && id in a && id !in seen
    requires WalkDigested(h, a, id, seen) <= streams && WalkDigested(h, b, id, seen) <= streams
    ensures Tells(a, b, seen, Walk(h, a, id, seen), Walk(h, b, id, seen), true)
    decreases a.Keys - seen, 0, 1
  {
    var fed, fed' := FunctionStream(h, a, id, seen), FunctionStream(h, b, id, seen);
    SectionsTell(h, streams, a, b, id, seen);
    DigestsAgree(h, streams, fed.0, fed'.0);
    StreamParts(h, a, id, seen);
    StreamParts(h, b, id, seen);
    if fed.0 == fed'.0 {
      StreamsShowCode(h, streams, a, id, b, id, seen, seen);
    } else if SameCode(a[id].code, b[id].code) {
      CodeIgnoresOrder(h, a[id].code, b[id].code);
    }
    if UneditedIn(a, b, fed.1 - (seen + Own(a, id))) {
      OwnUnedited(a, b, id, seen, fed.1);
    }
  }

  lemma WalkDetectsEdits(h: Hash, a: Functions, b: Functions, id: Id)
    requires AllVersions(a, b) && Compiled(a) && Compiled(b) && HasCode(a) && HasCode(b) && id in a
    requires Separates(h, WalkDigested(h, a, id, {}) + WalkDigested(h, b, id, {}))
    ensures Walk(h, a, id, {}).0 == Walk(h, b, id, {}).0 <==> UneditedIn(a, b, Reach(CaptureEdges(a), id))
  {
    var streams := WalkDigested(h, a, id, {}) + WalkDigested(h, b, id, {});
    var r, r' := Walk(h, a, id, {}), Walk(h, b, id, {});
    WalkTells(h, streams, a, b, id, {});
    FingerprintCoversCaptures(h, a, id);
    TellsOfAll(a, b, r, r');
  }

  lemma ReachedUnedited(a: Functions, b: Functions, id: Id)
    requires a.Keys == b.Keys
    ensures UneditedIn(a, b, Reach(CaptureEdges(a), id))
      <==> forall n :: n in a && Reaches(CaptureEdges(a), id, n) ==> Unedited(a[n], b[n])
  {
    assert forall n :: n in Reach(CaptureEdges(a), id) <==> n in a && Reaches(CaptureEdges(a), id, n);
  }

  /** Between versions of functions that capture each other alike, a fingerprint stays
    the same exactly when, in no function reached, the code, a captured value, a default
    or a compile option was edited (sets of constants in any order). */
  lemma FingerprintDetectsEdits(h: Hash, a: Functions, b: Functions, id: Id)
    requires AllVersions(a, b) && Compiled(a) && Compiled(b) && HasCode(a) && HasCode(b) && id in a
    requires Separates(h, WalkDigested(h, a, id, {}) + WalkDigested(h, b, id, {}))
    ensures Walk(h, a, id, {}).0 == Walk(h, b, id, {}).0 <==>
      forall n :: n in a && Reaches(CaptureEdges(a), id, n) ==>
        && SameCode(a[n].code, b[n].code) && a[n].closure == b[n].closure && a[n].defaults == b[n].defaults
        && a[n].kwdefaults == b[n].kwdefaults && Tail(a[n]) == Tail(b[n])
  {
    WalkDetectsEdits(h, a, b, id);
    ReachedUnedited(a, b, id);
    assert forall n :: n in a ==>
      (Unedited(a[n], b[n]) <==>
        && SameCode(a[n].code, b[n].code) && a[n].closure == b[n].closure && a[n].defaults == b[n].defaults
        && a[n].kwdefaults == b[n].kwdefaults && Tail(a[n]) == Tail(b[n]));
  }

  lemma TellsOfAll(a: Functions, b: Functions, r: (Bytes, set<Id>), r': (Bytes, set<Id>))
    requires Tells(a, b, {}, r, r', true)
    ensures r.0 == r'.0 <==> UneditedIn(a, b, r.1)
  {
    assert r.1 - {} == r.1;
  }
}
