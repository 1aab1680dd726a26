/** The walk of the function fingerprint over captured functions
  (src/cachau/fingerprint.py, `_fingerprint`, `_feed_closure`, `_feed_defaults`,
  `_feed_bound_value`).

  Objects are known by their identities.  The graph holds the function objects; any
  other captured object without a digest of its own is opaque.  Captures may be
  cyclic: a function may be captured, directly or not, by itself. */
module FingerprintWalk {
  import opened Bytes
  import opened Fingerprint
  import opened Graphs
  import opened Keys
  import opened Wrappers

  /** A captured value: one with a digest, an object known by identity, or a cell not
    bound yet. */
  datatype Binding = Digestible(digest: Digest) | Object(kind: Bytes, id: Id) | Unbound

  datatype Capture = Capture(name: Bytes, bound: Binding)

  /** What makes a function a JIT dispatcher: the identity of the Python function it
    compiles, and the texts of its semantic options and of its forced local types (no
    text when there are none). */
  datatype Jit = Jit(pyFunc: Id, options: Bytes, locals: Bytes)

  /** A function object; `kwdefaults` in the order of their names.  A dispatcher has the
    code, the captures and the defaults of its Python function. */
  datatype FunctionObject = FunctionObject(
    code: Code, closure: seq<Capture>, defaults: seq<Binding>, kwdefaults: seq<Capture>, jit: Option<Jit>)

  type Functions = map<Id, FunctionObject>

  function Hex(digest: Bytes): Bytes {
    if digest == [] then [] else [HexDigit(digest[0] / 16), HexDigit(digest[0] % 16)] + Hex(digest[1..])
  }

  /** A dispatcher's Python function is an object of its own. */
  predicate Compiled(g: Functions) {
    forall n :: n in g && g[n].jit.Some? ==>
      g[n].jit.value.pyFunc in g && g[g[n].jit.value.pyFunc] == g[n].(jit := None)
  }

  // -------------------------------------------------------------------- the streams

  function Header(text: string, present: bool): Bytes {
    if present then Ascii(text) else []
  }

  function JitText(options: Bytes, locals: Bytes): Bytes {
    Ascii("|target-options:") + (options + if locals == [] then [] else Ascii("|locals:") + locals)
  }

  /** What a dispatcher feeds behind its Python function. */
  function Tail(f: FunctionObject): Bytes {
    if f.jit.None? then [] else JitText(f.jit.value.options, f.jit.value.locals)
  }

  /** A function, and for a dispatcher its Python function too. */
  function Own(g: Functions, id: Id): (ids: set<Id>)
    ensures id in ids && (id in g ==> ids <= g.Keys)
  {
    {id} + if id in g && g[id].jit.Some? && g[id].jit.value.pyFunc in g then {g[id].jit.value.pyFunc} else {}
  }

  /** What one bound value feeds, and the functions seen by then. */
  function BoundStream(h: Hash, g: Functions, b: Binding, seen: set<Id>): (r: (Bytes, set<Id>))
    ensures seen <= r.1 <= seen + g.Keys
    decreases g.Keys - seen, 1, 0
  {
    match b
    case Digestible(digest) => (digest, seen)
    case Unbound => (Ascii("<unbound>"), seen)
    case Object(kind, id) =>
      if id !in g then (Ascii("<opaque:") + kind + Ascii(":") + Decimal(id) + Ascii(">"), seen)
      else if id in seen then (Ascii("<function:") + Ascii("recursive") + Ascii(">"), seen)
      else
        var inner := Walk(h, g, id, seen);
        (Ascii("<function:") + inner.0 + Ascii(">"), inner.1)
  }

  function CapturesStream(h: Hash, g: Functions, captures: seq<Capture>, seen: set<Id>): (r: (Bytes, set<Id>))
    ensures seen <= r.1 <= seen + g.Keys
    decreases g.Keys - seen, 2, |captures|
  {
    if captures == [] then ([], seen)
    else
      var first := BoundStream(h, g, captures[0].bound, seen);
      var rest := CapturesStream(h, g, captures[1..], first.1);
      (captures[0].name + Ascii("=") + first.0 + rest.0, rest.1)
  }

  function DefaultsStream(
      h: Hash, g: Functions, defaults: seq<Binding>, index: nat, seen: set<Id>): (r: (Bytes, set<Id>))
    ensures seen <= r.1 <= seen + g.Keys
    decreases g.Keys - seen, 2, |defaults|
  {
    if defaults == [] then ([], seen)
    else
      var first := BoundStream(h, g, defaults[0], seen);
      var rest := DefaultsStream(h, g, defaults[1..], index + 1, first.1);
      (Decimal(index) + Ascii("=") + first.0 + rest.0, rest.1)
  }

  /** What one function feeds, and the functions seen by then. */
  function FunctionStream(h: Hash, g: Functions, id: Id, seen: set<Id>): (r: (Bytes, set<Id>))
    requires id in g && id !in seen
    ensures seen + {id} <= r.1 <= seen + g.Keys
    decreases g.Keys - seen, 0, 0
  {
    var f := g[id];
    assert id in g.Keys - seen;
    var closure := CapturesStream(h, g, f.closure, seen + Own(g, id));
    var defaults := DefaultsStream(h, g, f.defaults, 0, closure.1);
    var kwdefaults := CapturesStream(h, g, f.kwdefaults, defaults.1);
    (CodeStream(h, f.code)
     + (Header("|closure:", f.closure != []) + closure.0)
     + (Header("|defaults:", f.defaults != []) + defaults.0)
     + (Header("|kwdefaults:", f.kwdefaults != []) + kwdefaults.0)
     + Tail(f), kwdefaults.1)
  }

  /** The hexadecimal digest of one function, and the functions seen by then. */
  function Walk(h: Hash, g: Functions, id: Id, seen: set<Id>): (r: (Bytes, set<Id>))
    requires id in g && id !in seen
    ensures seen + {id} <= r.1 <= seen + g.Keys
    decreases g.Keys - seen, 0, 1
  {
    var fed := FunctionStream(h, g, id, seen);
    (Hex(h(fed.0)), fed.1)
  }

  // --------------------------------------------------------- independent of identity

  function RenameBinding(b: Binding, name: Id -> Id): Binding {
    match b
    case Object(kind, id) => Object(kind, name(id))
    case _ => b
  }

  function RenameCaptures(captures: seq<Capture>, name: Id -> Id): (r: seq<Capture>)
    ensures |r| == |captures|
  {
    if captures == [] then []
    else [Capture(captures[0].name, RenameBinding(captures[0].bound, name))] + RenameCaptures(captures[1..], name)
  }

  function RenameBindings(bindings: seq<Binding>, name: Id -> Id): (r: seq<Binding>)
    ensures |r| == |bindings|
  {
    if bindings == [] then [] else [RenameBinding(bindings[0], name)] + RenameBindings(bindings[1..], name)
  }

  function Rename(f: FunctionObject, name: Id -> Id): FunctionObject {
    FunctionObject(f.code, RenameCaptures(f.closure, name), RenameBindings(f.defaults, name),
                   RenameCaptures(f.kwdefaults, name),
                   if f.jit.None? then None else Some(f.jit.value.(pyFunc := name(f.jit.value.pyFunc))))
  }

  /** `b` is `a` under other identities. */
  ghost predicate Renamed(a: Functions, b: Functions, name: Id -> Id) {
    && (forall m, n :: m in a && n in a && name(m) == name(n) ==> m == n)
    && (forall n :: n in a ==> name(n) in b && b[name(n)] == Rename(a[n], name))
  }

  predicate Transparent(g: Functions, b: Binding) {
    b.Object? ==> b.id in g
  }

  predicate AllTransparent(g: Functions, bindings: seq<Binding>) {
    bindings == [] || (Transparent(g, bindings[0]) && AllTransparent(g, bindings[1..]))
  }

  predicate CapturesTransparent(g: Functions, captures: seq<Capture>) {
    captures == [] || (Transparent(g, captures[0].bound) && CapturesTransparent(g, captures[1..]))
  }

  /** No opaque value is captured anywhere. */
  predicate NoOpaque(g: Functions) {
    forall n :: n in g ==>
      && (g[n].jit.Some? ==> g[n].jit.value.pyFunc in g)
      && CapturesTransparent(g, g[n].closure) && AllTransparent(g, g[n].defaults)
      && CapturesTransparent(g, g[n].kwdefaults)
  }

  /** The same functions have been seen, under the other identities. */
  ghost predicate SeenAlike(a: Functions, name: Id -> Id, seen: set<Id>, seen': set<Id>) {
    forall n :: n in a ==> (n in seen <==> name(n) in seen')
  }

  lemma {:induction false} BoundRenamed(
      h: Hash, a: Functions, b: Functions, name: Id -> Id, x: Binding, seen: set<Id>, seen': set<Id>)
    requires Renamed(a, b, name) && NoOpaque(a) && SeenAlike(a, name, seen, seen') && Transparent(a, x)
    ensures var r, r' := BoundStream(h, a, x, seen), BoundStream(h, b, RenameBinding(x, name), seen');
      r.0 == r'.0 && SeenAlike(a, name, r.1, r'.1)
    decreases a.Keys - seen, 1, 0
  {
    if x.Object? && x.id !in seen {
      WalkRenamed(h, a, b, name, x.id, seen, seen');
    }
  }

  lemma {:induction false} CapturesRenamed(
      h: Hash, a: Functions, b: Functions, name: Id -> Id, xs: seq<Capture>, seen: set<Id>, seen': set<Id>)
    requires Renamed(a, b, name) && NoOpaque(a) && SeenAlike(a, name, seen, seen') && CapturesTransparent(a, xs)
    ensures var r, r' := CapturesStream(h, a, xs, seen), CapturesStream(h, b, RenameCaptures(xs, name), seen');
      r.0 == r'.0 && SeenAlike(a, name, r.1, r'.1)
    decreases a.Keys - seen, 2, |xs|
  {
    if xs != [] {
      var ys := RenameCaptures(xs, name);
      assert ys[1..] == RenameCaptures(xs[1..], name);
      BoundRenamed(h, a, b, name, xs[0].bound, seen, seen');
      CapturesRenamed(h, a, b, name, xs[1..],
                      BoundStream(h, a, xs[0].bound, seen).1, BoundStream(h, b, ys[0].bound, seen').1);
    }
  }

  lemma {:induction false} DefaultsRenamed(
      h: Hash, a: Functions, b: Functions, name: Id -> Id, xs: seq<Binding>, index: nat, seen: set<Id>, seen': set<Id>)
    requires Renamed(a, b, name) && NoOpaque(a) && SeenAlike(a, name, seen, seen') && AllTransparent(a, xs)
    ensures var r := DefaultsStream(h, a, xs, index, seen);
      var r' := DefaultsStream(h, b, RenameBindings(xs, name), index, seen');
      r.0 == r'.0 && SeenAlike(a, name, r.1, r'.1)
    decreases a.Keys - seen, 2, |xs|
  {
    if xs != [] {
      var ys := RenameBindings(xs, name);
      assert ys[1..] == RenameBindings(xs[1..], name);
      BoundRenamed(h, a, b, name, xs[0], seen, seen');
      DefaultsRenamed(h, a, b, name, xs[1..], index + 1,
                      BoundStream(h, a, xs[0], seen).1, BoundStream(h, b, ys[0], seen').1);
    }
  }

  lemma OwnRenamed(a: Functions, b: Functions, name: Id -> Id, id: Id)
    requires Renamed(a, b, name) && NoOpaque(a) && id in a
    ensures SeenAlike(a, name, Own(a, id), Own(b, name(id)))
  {
  }

  lemma {:induction false} WalkRenamed(
      h: Hash, a: Functions, b: Functions, name: Id -> Id, id: Id, seen: set<Id>, seen': set<Id>)
    requires Renamed(a, b, name) && NoOpaque(a) && SeenAlike(a, name, seen, seen')
    requires id in a && id !in seen
    ensures name(id) in b && name(id) !in seen'
    ensures var r, r' := Walk(h, a, id, seen), Walk(h, b, name(id), seen');
      r.0 == r'.0 && SeenAlike(a, name, r.1, r'.1)
    decreases a.Keys - seen, 0, 0
  {
    var f, f' := a[id], b[name(id)];
    assert id in a.Keys - seen;
    var s, s' := seen + Own(a, id), seen' + Own(b, name(id));
    OwnRenamed(a, b, name, id);
    CapturesRenamed(h, a, b, name, f.closure, s, s');
    var t, t' := CapturesStream(h, a, f.closure, s), CapturesStream(h, b, f'.closure, s');
    DefaultsRenamed(h, a, b, name, f.defaults, 0, t.1, t'.1);
    var u, u' := DefaultsStream(h, a, f.defaults, 0, t.1), DefaultsStream(h, b, f'.defaults, 0, t'.1);
    CapturesRenamed(h, a, b, name, f.kwdefaults, u.1, u'.1);
  }

  /** The fingerprint of a function does not depend on where its objects live, when
    nothing opaque is captured: rebuilding the same functions, in another process
    say, gives the same fingerprint, however they refer to each other. */
  lemma FingerprintIgnoresIdentity(h: Hash, a: Functions, b: Functions, name: Id -> Id, id: Id)
    requires Renamed(a, b, name) && NoOpaque(a) && id in a
    ensures name(id) in b && Walk(h, a, id, {}).0 == Walk(h, b, name(id), {}).0
  {
    WalkRenamed(h, a, b, name, id, {}, {});
  }

  lemma ColonSplit(a: Bytes, i: Id, b: Bytes, j: Id)
    requires a + ([COLON] + Decimal(i)) == b + ([COLON] + Decimal(j))
    ensures a == b && i == j
  {
    var x, y := a + ([COLON] + Decimal(i)), b + ([COLON] + Decimal(j));
    assert x[|a|] == COLON && forall k :: |a| < k < |x| ==> x[k] == Decimal(i)[k - |a| - 1];
    assert y[|b|] == COLON && forall k :: |b| < k < |y| ==> y[k] == Decimal(j)[k - |b| - 1];
    assert |a| == |b|;
    FixedSplit(a, [COLON] + Decimal(i), b, [COLON] + Decimal(j));
    FixedSplit([COLON], Decimal(i), [COLON], Decimal(j));
    DecimalValue(i);
    DecimalValue(j);
  }

  /** An opaque value, by contrast, puts its type and its identity into the stream. */
  lemma OpaqueShowsIdentity(h: Hash, g: Functions, kind: Bytes, i: Id, other: Bytes, j: Id, seen: set<Id>)
    requires i !in g && j !in g
    ensures BoundStream(h, g, Object(kind, i), seen).0 == BoundStream(h, g, Object(other, j), seen).0
      <==> kind == other && i == j
  {
    var head, end := Ascii("<opaque:"), Ascii(">");
    var x, y := kind + ([COLON] + Decimal(i)), other + ([COLON] + Decimal(j));
    assert Ascii(":") == [COLON];
    Chain([], head, kind, [COLON], Decimal(i) + end);
    Chain([], head, other, [COLON], Decimal(j) + end);
    assert head + kind + Ascii(":") + Decimal(i) + end == head + (x + end);
    assert head + other + Ascii(":") + Decimal(j) + end == head + (y + end);
    if head + (x + end) == head + (y + end) {
      FixedSplit(head, x + end, head, y + end);
      assert |x| == |y|;
      FixedSplit(x, end, y, end);
      ColonSplit(kind, i, other, j);
    }
  }

  // --------------------------------------------------------------- what it covers

  function Referred(g: Functions, b: Binding): (ids: seq<Id>)
    ensures forall c :: c in ids <==> b.Object? && b.id == c && c in g
  {
    if b.Object? && b.id in g then [b.id] else []
  }

  function CaptureIds(g: Functions, captures: seq<Capture>): seq<Id> {
    if captures == [] then [] else Referred(g, captures[0].bound) + CaptureIds(g, captures[1..])
  }

  function BindingIds(g: Functions, bindings: seq<Binding>): seq<Id> {
    if bindings == [] then [] else Referred(g, bindings[0]) + BindingIds(g, bindings[1..])
  }

  /** The functions a function captures. */
  function Captured(g: Functions, f: FunctionObject): seq<Id> {
    CaptureIds(g, f.closure) + BindingIds(g, f.defaults) + CaptureIds(g, f.kwdefaults)
  }

  /** Those and, for a dispatcher, its Python function. */
  function References(g: Functions, f: FunctionObject): seq<Id> {
    Captured(g, f) + if f.jit.Some? then Referred(g, Object([], f.jit.value.pyFunc)) else []
  }

  function CaptureEdges(g: Functions): Edges {
    map n | n in g :: References(g, g[n])
  }

  /** What the walk added is closed under capture. */
  ghost predicate ClosedSince(g: Functions, before: set<Id>, after: set<Id>) {
    forall n, c :: n in after - before && n in g && c in References(g, g[n]) ==> c in after
  }

  lemma ClosedInTwoGoes(g: Functions, before: set<Id>, between: set<Id>, after: set<Id>)
    requires ClosedSince(g, before, between) && ClosedSince(g, between, after) && between <= after
    ensures ClosedSince(g, before, after)
  {
  }

  lemma {:induction false} BoundCovers(h: Hash, g: Functions, b: Binding, seen: set<Id>)
    requires Compiled(g)
    ensures var after := BoundStream(h, g, b, seen).1;
      ClosedSince(g, seen, after) && forall c :: c in Referred(g, b) ==> c in after
    decreases g.Keys - seen, 1, 0
  {
    if b.Object? && b.id in g && b.id !in seen {
      WalkCovers(h, g, b.id, seen);
    }
  }

  lemma {:induction false} CapturesCover(h: Hash, g: Functions, captures: seq<Capture>, seen: set<Id>)
    requires Compiled(g)
    ensures var after := CapturesStream(h, g, captures, seen).1;
      ClosedSince(g, seen, after) && forall c :: c in CaptureIds(g, captures) ==> c in after
    decreases g.Keys - seen, 2, |captures|
  {
    if captures != [] {
      var first := BoundStream(h, g, captures[0].bound, seen).1;
      BoundCovers(h, g, captures[0].bound, seen);
      CapturesCover(h, g, captures[1..], first);
      ClosedInTwoGoes(g, seen, first, CapturesStream(h, g, captures[1..], first).1);
    }
  }

  lemma {:induction false} DefaultsCover(h: Hash, g: Functions, defaults: seq<Binding>, index: nat, seen: set<Id>)
    requires Compiled(g)
    ensures var after := DefaultsStream(h, g, defaults, index, seen).1;
      ClosedSince(g, seen, after) && forall c :: c in BindingIds(g, defaults) ==> c in after
    decreases g.Keys - seen, 2, |defaults|
  {
    if defaults != [] {
      var first := BoundStream(h, g, defaults[0], seen).1;
      BoundCovers(h, g, defaults[0], seen);
      DefaultsCover(h, g, defaults[1..], index + 1, first);
      ClosedInTwoGoes(g, seen, first, DefaultsStream(h, g, defaults[1..], index + 1, first).1);
    }
  }

  lemma {:induction false} WalkCovers(h: Hash, g: Functions, id: Id, seen: set<Id>)
    requires Compiled(g) && id in g && id !in seen
    ensures ClosedSince(g, seen, Walk(h, g, id, seen).1)
    decreases g.Keys - seen, 0, 0
  {
    var f, s := g[id], seen + Own(g, id);
    assert id in g.Keys - seen;
    var t := CapturesStream(h, g, f.closure, s).1;
    var u := DefaultsStream(h, g, f.defaults, 0, t).1;
    var v := CapturesStream(h, g, f.kwdefaults, u).1;
    CapturesCover(h, g, f.closure, s);
    DefaultsCover(h, g, f.defaults, 0, t);
    CapturesCover(h, g, f.kwdefaults, u);
    ClosedInTwoGoes(g, s, t, u);
    ClosedInTwoGoes(g, s, u, v);
    assert forall c :: c in Captured(g, f) ==> c in v;
    forall n, c | n in v - seen && n in g && c in References(g, g[n]) ensures c in v {
      if n in Own(g, id) {
        assert c in Captured(g, f) || c in s;
      }
    }
  }

  /** Every new function is reached from one of the listed ones. */
  ghost predicate ReachedFrom(g: Functions, roots: seq<Id>, before: set<Id>, after: set<Id>) {
    forall n :: n in after && n !in before ==> exists c :: c in roots && Reaches(CaptureEdges(g), c, n)
  }

  lemma {:induction false} BoundReached(h: Hash, g: Functions, b: Binding, seen: set<Id>)
    ensures ReachedFrom(g, Referred(g, b), seen, BoundStream(h, g, b, seen).1)
    decreases g.Keys - seen, 1, 0
  {
    if b.Object? && b.id in g && b.id !in seen {
      WalkReached(h, g, b.id, seen);
      assert b.id in Referred(g, b);
    }
  }

  lemma ReachedInTwoGoes(g: Functions, xs: seq<Id>, ys: seq<Id>, before: set<Id>, between: set<Id>, after: set<Id>)
    requires ReachedFrom(g, xs, before, between) && ReachedFrom(g, ys, between, after)
    ensures ReachedFrom(g, xs + ys, before, after)
  {
    forall n | n in after && n !in before ensures exists c :: c in xs + ys && Reaches(CaptureEdges(g), c, n) {
      if n in between {
        var c :| c in xs && Reaches(CaptureEdges(g), c, n);
        assert c in xs + ys;
      } else {
        var c :| c in ys && Reaches(CaptureEdges(g), c, n);
        assert c in xs + ys;
      }
    }
  }

  lemma {:induction false} CapturesReached(h: Hash, g: Functions, captures: seq<Capture>, seen: set<Id>)
    ensures ReachedFrom(g, CaptureIds(g, captures), seen, CapturesStream(h, g, captures, seen).1)
    decreases g.Keys - seen, 2, |captures|
  {
    if captures != [] {
      var b := captures[0].bound;
      var first := BoundStream(h, g, b, seen).1;
      BoundReached(h, g, b, seen);
      CapturesReached(h, g, captures[1..], first);
      ReachedInTwoGoes(g, Referred(g, b), CaptureIds(g, captures[1..]), seen, first,
                       CapturesStream(h, g, captures[1..], first).1);
    }
  }

  lemma {:induction false} DefaultsReached(h: Hash, g: Functions, defaults: seq<Binding>, index: nat, seen: set<Id>)
    ensures ReachedFrom(g, BindingIds(g, defaults), seen, DefaultsStream(h, g, defaults, index, seen).1)
    decreases g.Keys - seen, 2, |defaults|
  {
    if defaults != [] {
      var first := BoundStream(h, g, defaults[0], seen).1;
      BoundReached(h, g, defaults[0], seen);
      DefaultsReached(h, g, defaults[1..], index + 1, first);
      ReachedInTwoGoes(g, Referred(g, defaults[0]), BindingIds(g, defaults[1..]), seen, first,
                       DefaultsStream(h, g, defaults[1..], index + 1, first).1);
    }
  }

  lemma {:induction false} WalkReached(h: Hash, g: Functions, id: Id, seen: set<Id>)
    requires id in g && id !in seen
    ensures forall n :: n in Walk(h, g, id, seen).1 && n !in seen ==> Reaches(CaptureEdges(g), id, n)
    decreases g.Keys - seen, 0, 0
  {
    var f, s := g[id], seen + Own(g, id);
    assert id in g.Keys - seen;
    var t := CapturesStream(h, g, f.closure, s).1;
    var u := DefaultsStream(h, g, f.defaults, 0, t).1;
    var v := CapturesStream(h, g, f.kwdefaults, u).1;
    CapturesReached(h, g, f.closure, s);
    DefaultsReached(h, g, f.defaults, 0, t);
    CapturesReached(h, g, f.kwdefaults, u);
    ReachedInTwoGoes(g, CaptureIds(g, f.closure), BindingIds(g, f.defaults), s, t, u);
    ReachedInTwoGoes(g, CaptureIds(g, f.closure) + BindingIds(g, f.defaults), CaptureIds(g, f.kwdefaults), s, u, v);
    forall n | n in v && n !in seen ensures Reaches(CaptureEdges(g), id, n) {
      if n == id {
        ReachesSelf(CaptureEdges(g), id);
      } else if n in Own(g, id) {
        ReachesSelf(CaptureEdges(g), n);
        ReachesVia(CaptureEdges(g), id, n, n);
      } else {
        var c :| c in Captured(g, f) && Reaches(CaptureEdges(g), c, n);
        ReachesVia(CaptureEdges(g), id, c, n);
      }
    }
  }

  lemma VisitedIsReach(g: Functions, id: Id, after: set<Id>)
    requires id in after && after <= g.Keys && ClosedSince(g, {}, after)
    requires forall n :: n in after ==> Reaches(CaptureEdges(g), id, n)
    ensures after == Reach(CaptureEdges(g), id)
  {
    var edges := CaptureEdges(g);
    forall n, c | n in after && n in edges && c in edges[n] ensures c in after {
      assert n in after - {} && c in References(g, g[n]);
    }
    ReachIsLeast(edges, after, id);
    assert forall n :: n in after ==> n in edges;
  }

  /** The walk visits exactly the functions reachable through captures, so the code of
    every one of them, and of no other, is in the fingerprint. */
  lemma FingerprintCoversCaptures(h: Hash, g: Functions, id: Id)
    requires Compiled(g) && id in g
    ensures Walk(h, g, id, {}).1 == Reach(CaptureEdges(g), id)
  {
    WalkCovers(h, g, id, {});
    WalkReached(h, g, id, {});
    VisitedIsReach(g, id, Walk(h, g, id, {}).1);
  }

  // --------------------------------------------------- the walk as it is carried out

  lemma Prepend(fed: Bytes, a: Bytes, b: Bytes, c: Bytes, rest: Bytes)
    ensures fed + (a + b + c + rest) == (((fed + a) + b) + c) + rest
  {
    Associate(fed, a + b + c, rest);
    Associate(fed, a + b, c);
    Associate(fed, a, b);
  }

  lemma CapturesStep(h: Hash, g: Functions, fed: Bytes, captures: seq<Capture>, i: nat, seen: set<Id>)
    requires i < |captures|
    ensures var first := BoundStream(h, g, captures[i].bound, seen);
      var rest, all := CapturesStream(h, g, captures[i + 1..], first.1), CapturesStream(h, g, captures[i..], seen);
      fed + all.0 == (((fed + captures[i].name) + Ascii("=")) + first.0) + rest.0 && all.1 == rest.1
  {
    var first := BoundStream(h, g, captures[i].bound, seen);
    assert captures[i..][0] == captures[i] && captures[i..][1..] == captures[i + 1..];
    Prepend(fed, captures[i].name, Ascii("="), first.0, CapturesStream(h, g, captures[i + 1..], first.1).0);
  }

  lemma DefaultsStep(h: Hash, g: Functions, fed: Bytes, defaults: seq<Binding>, i: nat, seen: set<Id>)
    requires i < |defaults|
    ensures var first := BoundStream(h, g, defaults[i], seen);
      var rest := DefaultsStream(h, g, defaults[i + 1..], i + 1, first.1);
      var all := DefaultsStream(h, g, defaults[i..], i, seen);
      fed + all.0 == (((fed + Decimal(i)) + Ascii("=")) + first.0) + rest.0 && all.1 == rest.1
  {
    var first := BoundStream(h, g, defaults[i], seen);
    assert defaults[i..][0] == defaults[i] && defaults[i..][1..] == defaults[i + 1..];
    Prepend(fed, Decimal(i), Ascii("="), first.0, DefaultsStream(h, g, defaults[i + 1..], i + 1, first.1).0);
  }

  /** One run of `_fingerprint` over a graph: the identities seen so far. */
  class Fingerprinter {
    const h: Hash
    const g: Functions
    var seen: set<Id>

    constructor (h: Hash, g: Functions)
      ensures this.h == h && this.g == g && seen == {}
    {
      this.h, this.g, seen := h, g, {};
    }

    method FeedBound(hasher: Hasher, b: Binding)
      modifies this, hasher
      ensures var r := BoundStream(h, g, b, old(seen)); hasher.fed == old(hasher.fed) + r.0 && seen == r.1
      decreases g.Keys - seen, 1, 0
    {
      match b {
        case Digestible(digest) => hasher.Update(digest);
        case Unbound => hasher.Update(Ascii("<unbound>"));
        case Object(kind, id) =>
          if id !in g {
            hasher.Update(Ascii("<opaque:") + kind + Ascii(":") + Decimal(id) + Ascii(">"));
          } else {
            var inner := Ascii("recursive");
            if id !in seen {
              inner := FingerprintOf(id);
            }
            hasher.Update(Ascii("<function:") + inner + Ascii(">"));
          }
      }
    }

    /** `zip` over the captured names and values. */
    method FeedEach(hasher: Hasher, captures: seq<Capture>)
      modifies this, hasher
      ensures var r := CapturesStream(h, g, captures, old(seen)); hasher.fed == old(hasher.fed) + r.0 && seen == r.1
      decreases g.Keys - seen, 2, 0
    {
      ghost var all := CapturesStream(h, g, captures, seen);
      ghost var whole, before := hasher.fed + all.0, seen;
      assert captures[0..] == captures;
      for i := 0 to |captures|
        invariant before <= seen
        invariant var rest := CapturesStream(h, g, captures[i..], seen); whole == hasher.fed + rest.0 && all.1 == rest.1
      {
        CapturesStep(h, g, hasher.fed, captures, i, seen);
        hasher.Update(captures[i].name);
        hasher.Update(Ascii("="));
        FeedBound(hasher, captures[i].bound);
      }
      assert captures[|captures|..] == [] && hasher.fed + [] == hasher.fed;
    }

    /** A section of captures behind its header. */
    method FeedCaptures(hasher: Hasher, text: string, captures: seq<Capture>)
      modifies this, hasher
      ensures var r := CapturesStream(h, g, captures, old(seen));
        hasher.fed == old(hasher.fed) + (Header(text, captures != []) + r.0) && seen == r.1
      decreases g.Keys - seen, 3, 0
    {
      ghost var was, stream := hasher.fed, CapturesStream(h, g, captures, seen).0;
      hasher.Update(Header(text, captures != []));
      FeedEach(hasher, captures);
      Associate(was, Header(text, captures != []), stream);
    }

    method FeedIndexed(hasher: Hasher, defaults: seq<Binding>)
      modifies this, hasher
      ensures var r := DefaultsStream(h, g, defaults, 0, old(seen)); hasher.fed == old(hasher.fed) + r.0 && seen == r.1
      decreases g.Keys - seen, 2, 0
    {
      ghost var all := DefaultsStream(h, g, defaults, 0, seen);
      ghost var whole, before := hasher.fed + all.0, seen;
      assert defaults[0..] == defaults;
      for i := 0 to |defaults|
        invariant before <= seen
        invariant var rest := DefaultsStream(h, g, defaults[i..], i, seen);
          whole == hasher.fed + rest.0 && all.1 == rest.1
      {
        DefaultsStep(h, g, hasher.fed, defaults, i, seen);
        hasher.Update(Decimal(i));
        hasher.Update(Ascii("="));
        FeedBound(hasher, defaults[i]);
      }
      assert defaults[|defaults|..] == [] && hasher.fed + [] == hasher.fed;
    }

    method FeedDefaults(hasher: Hasher, defaults: seq<Binding>)
      modifies this, hasher
      ensures var r := DefaultsStream(h, g, defaults, 0, old(seen));
        hasher.fed == old(hasher.fed) + (Header("|defaults:", defaults != []) + r.0) && seen == r.1
      decreases g.Keys - seen, 3, 0
    {
      ghost var was, stream := hasher.fed, DefaultsStream(h, g, defaults, 0, seen).0;
      hasher.Update(Header("|defaults:", defaults != []));
      FeedIndexed(hasher, defaults);
      Associate(was, Header("|defaults:", defaults != []), stream);
    }

    /** `_fingerprint`: one function, into a hasher of its own. */
    method FingerprintOf(id: Id) returns (digest: Bytes)
      requires id in g && id !in seen
      modifies this
      ensures (digest, seen) == Walk(h, g, id, old(seen))
      decreases g.Keys - seen, 0, 0
    {
      assert id in g.Keys - seen;
      seen := seen + Own(g, id);
      var hasher := new Hasher();
      var f := g[id];
      FeedCode(h, hasher, f.code);
      assert hasher.fed == CodeStream(h, f.code);
      FeedCaptures(hasher, "|closure:", f.closure);
      FeedDefaults(hasher, f.defaults);
      FeedCaptures(hasher, "|kwdefaults:", f.kwdefaults);
      hasher.Update(Tail(f));
      digest := Hex(h(hasher.fed));
    }
  }

  datatype Unsupported = NotAFunction

  /** `function_fingerprint`: an object that is neither a function nor a dispatcher has
    no fingerprint. */
  method FunctionFingerprint(h: Hash, g: Functions, id: Id) returns (r: Result<Bytes, Unsupported>)
    ensures r.Ok? <==> id in g
    ensures r.Ok? ==> r.result == Walk(h, g, id, {}).0
  {
    if id !in g {
      return Err(NotAFunction);
    }
    var walker := new Fingerprinter(h, g);
    var digest := walker.FingerprintOf(id);
    r := Ok(digest);
  }
}
