/** Which compile options of a JIT dispatcher its fingerprint shows
  (src/cachau/fingerprint.py, `_fingerprint` and `_stable_option_value`). */
module Dispatchers {
  import opened Bytes
  import opened Fingerprint
  import opened FingerprintEdits
  import opened FingerprintWalk
  import opened Graphs
  import opened Ledgers
  import opened Sorting
  import opened Wrappers
  import Constants
  import Keys

  /** An option's value: flags in the order their set is iterated in, or the `repr` of
    anything else. */
  datatype Setting = Plain(text: Bytes) | Flags(listing: seq<string>)

  datatype Stable = Text(text: Bytes) | Ordered(flags: seq<string>)

  datatype Relevant = Relevant(name: string, value: Stable)

  type Options = map<string, Setting>

  /** The options that can change results, in the order of their names. */
  function Semantic(): seq<string> {
    ["boundscheck", "error_model", "fastmath", "forceobj", "nopython", "parallel"]
  }

  function StableValue(s: Setting): Stable {
    match s
    case Plain(text) => Text(text)
    case Flags(listing) => Ordered(Sort(StringLeq, listing))
  }

  /** The named options that are set. */
  function Select(names: seq<string>, options: Options): (r: seq<Relevant>)
    ensures forall x :: x in r ==> x.name in names
  {
    if names == [] then []
    else if names[0] in options then
      [Relevant(names[0], StableValue(options[names[0]]))] + Select(names[1..], options)
    else Select(names[1..], options)
  }

  predicate SameSetting(a: Setting, b: Setting) {
    match (a, b)
    case (Plain(text), Plain(other)) => text == other
    case (Flags(listing), Flags(other)) => multiset(listing) == multiset(other)
    case _ => false
  }

  predicate SameNamed(names: seq<string>, a: Options, b: Options) {
    forall name :: name in names ==>
      (name in a <==> name in b) && (name in a && name in b ==> SameSetting(a[name], b[name]))
  }

  lemma StableWhenSame(a: Setting, b: Setting)
    ensures StableValue(a) == StableValue(b) <==> SameSetting(a, b)
  {
    if a.Flags? && b.Flags? {
      StringIsTotalOrder();
      SortForgetsOrder(StringLeq, a.listing, a.listing);
      SortForgetsOrder(StringLeq, b.listing, b.listing);
      if SameSetting(a, b) {
        SortForgetsOrder(StringLeq, a.listing, b.listing);
      }
    }
  }

  lemma {:induction false} SelectedAlike(names: seq<string>, a: Options, b: Options)
    requires Once(names)
    ensures Select(names, a) == Select(names, b) <==> SameNamed(names, a, b)
  {
    if names != [] {
      var name, rest := names[0], names[1..];
      SelectedAlike(rest, a, b);
      assert names == [name] + rest;
      assert SameNamed(names, a, b) <==> SameNamed([name], a, b) && SameNamed(rest, a, b);
      var x, y := Select(names, a), Select(names, b);
      if name in a && name in b {
        StableWhenSame(a[name], b[name]);
        assert x[0].value == StableValue(a[name]) && y[0].value == StableValue(b[name]);
        assert x[1..] == Select(rest, a) && y[1..] == Select(rest, b);
      } else if name in a {
        assert x[0].name == name && (y != [] ==> y[0] in y);
      } else if name in b {
        assert y[0].name == name && (x != [] ==> x[0] in x);
      }
    }
  }

  const BAR: Byte := 124

  /** The text of the options ends where the one of the locals begins, if it has no bar. */
  lemma JitTextSplit(a: Bytes, la: Bytes, b: Bytes, lb: Bytes)
    requires BAR !in a && BAR !in b
    ensures JitText(a, la) == JitText(b, lb) <==> a == b && la == lb
  {
    if JitText(a, la) == JitText(b, lb) {
      var ra := if la == [] then [] else Ascii("|locals:") + la;
      var rb := if lb == [] then [] else Ascii("|locals:") + lb;
      FixedSplit(Ascii("|target-options:"), a + ra, Ascii("|target-options:"), b + rb);
      BarSplit(a, ra, b, rb);
      if la != [] {
        FixedSplit(Ascii("|locals:"), la, Ascii("|locals:"), lb);
      }
    }
  }

  function BarAt(s: Bytes): nat {
    if s == [] || s[0] == BAR then 0 else 1 + BarAt(s[1..])
  }

  lemma {:induction false} FirstBar(a: Bytes, r: Bytes)
    requires BAR !in a && (r == [] || r[0] == BAR)
    ensures BarAt(a + r) == |a|
  {
    if a == [] {
      assert a + r == r;
    } else {
      assert (a + r)[1..] == a[1..] + r;
      FirstBar(a[1..], r);
    }
  }

  lemma BarSplit(a: Bytes, r: Bytes, b: Bytes, s: Bytes)
    requires a + r == b + s && BAR !in a && BAR !in b
    requires (r == [] || r[0] == BAR) && (s == [] || s[0] == BAR)
    ensures a == b && r == s
  {
    FirstBar(a, r);
    FirstBar(b, s);
    FixedSplit(a, r, b, s);
  }

  /** What a dispatcher feeds about its compilation agrees exactly when the options
    that can change results do, sets of flags in any order, and the forced local types
    do; no other option matters.  `repr` need only tell these two lists apart and use
    no bar. */
  lemma OptionsShow(repr: seq<Relevant> -> Bytes, a: Options, b: Options, la: Bytes, lb: Bytes)
    requires var x, y := Select(Semantic(), a), Select(Semantic(), b);
      (repr(x) == repr(y) ==> x == y) && BAR !in repr(x) && BAR !in repr(y)
    ensures JitText(repr(Select(Semantic(), a)), la) == JitText(repr(Select(Semantic(), b)), lb)
      <==> SameNamed(Semantic(), a, b) && la == lb
  {
    var x, y := Select(Semantic(), a), Select(Semantic(), b);
    SemanticOnce();
    SelectedAlike(Semantic(), a, b);
    JitTextSplit(repr(x), la, repr(y), lb);
  }

  lemma {:induction false} SameAsItself(code: Code)
    requires IsCode(code)
    ensures SameCode(code, code)
    decreases code, 1
  {
    ConstsSameAsThemselves(code.consts);
  }

  lemma {:induction false} ConstSameAsItself(x: CodeConst)
    requires IsConst(x)
    ensures SameConst(x, x)
    decreases x, 0
  {
    match x {
      case Constant(value) => Constants.RendersAlikeIffSame(value, value);
      case Nested(code) => SameAsItself(code);
    }
  }

  lemma {:induction false} ConstsSameAsThemselves(consts: seq<CodeConst>)
    requires AreConsts(consts)
    ensures SameConsts(consts, consts)
    decreases consts, 0
  {
    if consts != [] {
      ConstSameAsItself(consts[0]);
      ConstsSameAsThemselves(consts[1..]);
    }
  }

  lemma {:induction false} CapturesAlikeThemselves(xs: seq<Capture>)
    ensures CapturesAlike(xs, xs)
  {
    if xs != [] {
      CapturesAlikeThemselves(xs[1..]);
    }
  }

  lemma {:induction false} DefaultsAlikeThemselves(xs: seq<Binding>)
    ensures DefaultsAlike(xs, xs)
  {
    if xs != [] {
      DefaultsAlikeThemselves(xs[1..]);
    }
  }

  /** The functions with a dispatcher compiled otherwise. */
  function Recompiled(g: Functions, id: Id, jit: Jit): Functions
    requires id in g
  {
    g[id := g[id].(jit := Some(jit))]
  }

  lemma RecompiledVersions(g: Functions, id: Id, jit: Jit)
    requires id in g && g[id].jit.Some? && g[id].jit.value.pyFunc == jit.pyFunc && Compiled(g)
    ensures AllVersions(g, Recompiled(g, id, jit)) && Compiled(Recompiled(g, id, jit))
  {
    forall n | n in g ensures Versions(g[n], Recompiled(g, id, jit)[n]) {
      CapturesAlikeThemselves(g[n].closure);
      DefaultsAlikeThemselves(g[n].defaults);
      CapturesAlikeThemselves(g[n].kwdefaults);
    }
  }

  lemma RecompiledUnedited(g: Functions, id: Id, jit: Jit, reached: set<Id>)
    requires id in g && id in reached && HasCode(g) && g[id].jit.Some?
    ensures UneditedIn(g, Recompiled(g, id, jit), reached) <==> Tail(g[id]) == JitText(jit.options, jit.locals)
  {
    var b := Recompiled(g, id, jit);
    forall n | n in g ensures SameCode(g[n].code, b[n].code) {
      SameAsItself(g[n].code);
    }
  }

  lemma RecompiledReached(g: Functions, id: Id, jit: Jit)
    requires id in g && HasCode(g) && g[id].jit.Some?
    ensures UneditedIn(g, Recompiled(g, id, jit), Reach(CaptureEdges(g), id))
      <==> Tail(g[id]) == JitText(jit.options, jit.locals)
  {
    ReachesSelf(CaptureEdges(g), id);
    RecompiledUnedited(g, id, jit, Reach(CaptureEdges(g), id));
  }

  lemma RecompiledCode(g: Functions, id: Id, jit: Jit)
    requires id in g && HasCode(g)
    ensures HasCode(Recompiled(g, id, jit)) && Recompiled(g, id, jit).Keys == g.Keys
  {
  }

  /** Two ways to compile a function have one fingerprint exactly when they feed the same
    text. */
  lemma JitReachesTheFingerprint(h: Keys.Hash, g: Functions, id: Id, jit: Jit)
    requires id in g && g[id].jit.Some? && g[id].jit.value.pyFunc == jit.pyFunc && Compiled(g) && HasCode(g)
    requires Keys.Separates(h, WalkDigested(h, g, id, {}) + WalkDigested(h, Recompiled(g, id, jit), id, {}))
    ensures Walk(h, g, id, {}).0 == Walk(h, Recompiled(g, id, jit), id, {}).0
      <==> Tail(g[id]) == JitText(jit.options, jit.locals)
  {
    var other := Recompiled(g, id, jit);
    RecompiledCode(g, id, jit);
    RecompiledVersions(g, id, jit);
    RecompiledReached(g, id, jit);
    WalkDetectsEdits(h, g, other, id);
  }

  /** That is, when the options that can change results and the forced local types are
    the same. */
  lemma OptionsReachTheFingerprint(h: Keys.Hash, repr: seq<Relevant> -> Bytes, g: Functions, id: Id, jit: Jit,
      a: Options, b: Options)
    requires id in g && g[id].jit.Some? && g[id].jit.value.pyFunc == jit.pyFunc && Compiled(g) && HasCode(g)
    requires Keys.Separates(h, WalkDigested(h, g, id, {}) + WalkDigested(h, Recompiled(g, id, jit), id, {}))
    requires g[id].jit.value.options == repr(Select(Semantic(), a)) && jit.options == repr(Select(Semantic(), b))
    requires repr(Select(Semantic(), a)) == repr(Select(Semantic(), b)) ==>
      Select(Semantic(), a) == Select(Semantic(), b)
    requires BAR !in g[id].jit.value.options && BAR !in jit.options
    ensures Walk(h, g, id, {}).0 == Walk(h, Recompiled(g, id, jit), id, {}).0
      <==> SameNamed(Semantic(), a, b) && g[id].jit.value.locals == jit.locals
  {
    JitReachesTheFingerprint(h, g, id, jit);
    OptionsShow(repr, a, b, g[id].jit.value.locals, jit.locals);
  }

  /** The options that can change results, by name. */
  lemma SemanticNames(name: string)
    ensures name in Semantic() <==>
      || name == "fastmath" || name == "parallel" || name == "boundscheck" || name == "error_model"
      || name == "nopython" || name == "forceobj"
  {
  }

  lemma SemanticOnce()
    ensures Once(Semantic())
  {
    assert "boundscheck"[0] == 'b' && "error_model"[0] == 'e' && "nopython"[0] == 'n' && "parallel"[0] == 'p';
    assert "fastmath"[1] == 'a' && "forceobj"[1] == 'o';
  }
}
