/** Declared dependencies and their fingerprints (src/cachau/dependencies.py).

  A declaration, when there is one, should be a list of specifications; each has a
  label of its own or none, and its current state as a fingerprint string.
  Fingerprints are stored in the entry as a map from labels, or as nothing when no
  dependency is declared. */
module Dependencies {
  import opened Sorting
  import opened Wrappers

  type Label = string
  type Fingerprints = Option<map<Label, string>>

  /** A descriptor, or something that is neither a descriptor nor a path. */
  datatype Spec = Descriptor(name: Option<Label>) | Foreign

  /** `depends_on=` is missing, a bare string or nothing iterable, or lists its items. */
  datatype Declaration = Absent | Unlisted | Listed(specs: seq<Spec>)

  datatype Problem = NotAList | NotADependency(at: nat) | Duplicate(name: Label)

  /** The digits of an index, as an f-string prints it. */
  function Printed(n: nat): (s: string)
    ensures s != []
    decreases n
  {
    (if n < 10 then "" else Printed(n / 10)) + [("0123456789")[n % 10]]
  }

  function Positional(at: nat): (l: Label)
    ensures l != []
  {
    "token[" + Printed(at) + "]"
  }

  /** A missing label, or an empty one, falls back to the position. */
  function LabelAt(spec: Spec, at: nat): (l: Label)
    ensures l != []
  {
    if spec.Descriptor? && spec.name.Some? && spec.name.value != [] then spec.name.value else Positional(at)
  }

  function Labels(specs: seq<Spec>): (r: seq<Label>)
    ensures |r| == |specs|
  {
    seq(|specs|, i requires 0 <= i < |specs| => LabelAt(specs[i], i))
  }

  lemma {:induction false} PrintedInjective(m: nat, n: nat)
    requires Printed(m) == Printed(n)
    ensures m == n
  {
    var a, b := Printed(m), Printed(n);
    assert a[|a| - 1] == b[|b| - 1];
    assert a[..|a| - 1] == (if m < 10 then "" else Printed(m / 10));
    assert b[..|b| - 1] == (if n < 10 then "" else Printed(n / 10));
    if m >= 10 && n >= 10 {
      PrintedInjective(m / 10, n / 10);
    }
  }

  /** A named item has its name; unnamed ones are told apart by their positions. */
  lemma LabelsAreNamesOrPositions(name: Label, i: nat, j: nat)
    ensures name != "" ==> LabelAt(Descriptor(Some(name)), i) == name
    ensures LabelAt(Descriptor(None), i) == LabelAt(Descriptor(Some("")), i)
    ensures LabelAt(Descriptor(None), i) == LabelAt(Descriptor(None), j) <==> i == j
    ensures LabelAt(Descriptor(None), 0) == "token[0]" && LabelAt(Descriptor(None), 12) == "token[12]"
  {
    if Positional(i) == Positional(j) {
      var a, b := Positional(i), Positional(j);
      assert a[6..|a| - 1] == Printed(i) && b[6..|b| - 1] == Printed(j);
      PrintedInjective(i, j);
    }
    assert Printed(1) == "1" && Printed(12) == "12";
  }

  /** Nothing is wrong with a declaration before `n`. */
  ghost predicate Sound(specs: seq<Spec>, n: nat)
    requires n <= |specs|
  {
    && (forall i :: 0 <= i < n ==> specs[i].Descriptor?)
    && (forall i, j :: 0 <= i < j < n ==> Labels(specs)[i] != Labels(specs)[j])
  }

  /** What is wrong with the declaration at `n`. */
  predicate FailsAt(specs: seq<Spec>, n: nat, problem: Problem)
    requires n < |specs|
  {
    match problem
    case NotAList => false
    case NotADependency(at) => at == n && specs[n].Foreign?
    case Duplicate(name) => name == Labels(specs)[n] && specs[n].Descriptor? && name in Labels(specs)[..n]
  }

  /** The items of a declaration; none when nothing is declared. */
  function Items(depends: Declaration): seq<Spec> {
    if depends.Listed? then depends.specs else []
  }

  /** The labels of a declaration, all different; or the first thing wrong with it.
    A missing declaration declares nothing, and one that is no list is refused even
    where its characters could be paths. */
  method Normalize(depends: Declaration) returns (r: Result<seq<Label>, Problem>)
    ensures r.Ok? <==> !depends.Unlisted? && Sound(Items(depends), |Items(depends)|)
    ensures r.Ok? ==> r.result == Labels(Items(depends))
    ensures r == Err(NotAList) <==> depends.Unlisted?
    ensures r.Err? && depends.Listed? ==>
      exists n :: 0 <= n < |depends.specs| && Sound(depends.specs, n) && FailsAt(depends.specs, n, r.error)
  {
    if depends.Absent? {
      return Ok([]);
    }
    if depends.Unlisted? {
      return Err(NotAList);
    }
    var specs := depends.specs;
    var labeled: seq<Label>, seen: set<Label> := [], {};
    ghost var all := Labels(specs);
    for i := 0 to |specs|
      invariant Sound(specs, i)
      invariant labeled == all[..i] && forall l :: l in seen <==> l in all[..i]
    {
      if specs[i].Foreign? {
        return Err(NotADependency(i));
      }
      var name := LabelAt(specs[i], i);
      assert name == all[i];
      if name in seen {
        assert exists j :: 0 <= j < i && all[j] == all[i];
        return Err(Duplicate(name));
      }
      seen := seen + {name};
      labeled := labeled + [name];
    }
    assert all[..|specs|] == all;
    r := Ok(labeled);
  }

  /** Nothing when nothing is declared: deliberately not the empty map. */
  function Fingerprint(labels: seq<Label>, states: Label -> string): (r: Fingerprints)
    ensures r.None? <==> labels == []
    ensures r.Some? ==> forall l :: l in r.value <==> l in labels
    ensures r.Some? ==> forall l :: l in labels ==> r.value[l] == states(l)
  {
    if labels == [] then None else Some(map l | l in labels :: states(l))
  }

  /** Nothing and the empty map read the same here. */
  function Read(f: Fingerprints): map<Label, string> {
    if f.Some? then f.value else map[]
  }

  function Get(m: map<Label, string>, name: Label): Option<string> {
    if name in m then Some(m[name]) else None
  }

  /** The labels of a listing whose fingerprints differ. */
  function Differing(listing: seq<Label>, stored: Fingerprints, current: Fingerprints): (r: seq<Label>)
    ensures forall l :: l in r <==> l in listing && Get(Read(stored), l) != Get(Read(current), l)
  {
    if listing == [] then []
    else
      var rest := Differing(listing[1..], stored, current);
      if Get(Read(stored), listing[0]) != Get(Read(current), listing[0]) then [listing[0]] + rest else rest
  }

  /** `listing` is the iteration order of the union of the two key sets. */
  ghost predicate Lists(listing: seq<Label>, stored: Fingerprints, current: Fingerprints) {
    && (forall i, j :: 0 <= i < j < |listing| ==> listing[i] != listing[j])
    && (forall l :: l in listing <==> l in Read(stored) || l in Read(current))
  }

  function ChangedLabels(listing: seq<Label>, stored: Fingerprints, current: Fingerprints): seq<Label> {
    Sort(StringLeq, Differing(listing, stored, current))
  }

  lemma {:induction false} DifferingOnce(listing: seq<Label>, stored: Fingerprints, current: Fingerprints, l: Label)
    requires forall i, j :: 0 <= i < j < |listing| ==> listing[i] != listing[j]
    ensures multiset(Differing(listing, stored, current))[l]
         == if l in Differing(listing, stored, current) then 1 else 0
  {
    if listing != [] {
      var first, rest := listing[0], Differing(listing[1..], stored, current);
      DifferingOnce(listing[1..], stored, current, l);
      assert first !in listing[1..];
      assert multiset([first] + rest) == multiset{first} + multiset(rest);
    }
  }

  /** The changed labels are exactly those whose fingerprints differ, sorted, whatever
    order the key sets were iterated in. */
  lemma ChangedLabelsAreSorted(listing: seq<Label>, again: seq<Label>, stored: Fingerprints, current: Fingerprints)
    requires Lists(listing, stored, current) && Lists(again, stored, current)
    ensures ChangedLabels(listing, stored, current) == ChangedLabels(again, stored, current)
    ensures SortedBy(StringLeq, ChangedLabels(listing, stored, current))
    ensures forall l :: l in ChangedLabels(listing, stored, current) <==> Get(Read(stored), l) != Get(Read(current), l)
  {
    var a, b := Differing(listing, stored, current), Differing(again, stored, current);
    forall l ensures multiset(a)[l] == multiset(b)[l] {
      DifferingOnce(listing, stored, current, l);
      DifferingOnce(again, stored, current, l);
    }
    assert multiset(a) == multiset(b);
    StringIsTotalOrder();
    SortSorted(StringLeq, a);
    SortForgetsOrder(StringLeq, a, b);
    forall l ensures l in Sort(StringLeq, a) <==> l in a {
      assert l in Sort(StringLeq, a) <==> l in multiset(Sort(StringLeq, a));
    }
  }

  lemma SameReads(stored: Fingerprints, current: map<Label, string>, some: Label)
    requires some in current
    requires forall l :: Get(Read(stored), l) == Get(current, l)
    ensures stored == Some(current)
  {
    assert Get(current, some).Some?;
    forall l ensures l in Read(stored) <==> l in current {
      assert Get(Read(stored), l) == Get(current, l);
    }
    forall l | l in current ensures Read(stored)[l] == current[l] {
      assert Get(Read(stored), l) == Get(current, l);
    }
    assert Read(stored) == current;
  }

  /** With dependencies declared, the stored fingerprints are not the current ones
    exactly when some label is reported changed. */
  lemma ChangedWhenDifferent(listing: seq<Label>, stored: Fingerprints, labels: seq<Label>, states: Label -> string)
    requires labels != [] && Lists(listing, stored, Fingerprint(labels, states))
    ensures stored != Fingerprint(labels, states) <==> ChangedLabels(listing, stored, Fingerprint(labels, states)) != []
  {
    var current := Fingerprint(labels, states);
    var changed := ChangedLabels(listing, stored, current);
    ChangedLabelsAreSorted(listing, listing, stored, current);
    assert changed == [] || changed[0] in changed;
    if changed == [] {
      assert labels[0] in labels;
      SameReads(stored, current.value, labels[0]);
    }
  }
}
