/** Finite directed graphs given by child lists, and which nodes a node reaches. */
module Graphs {
  type Id = nat
  type Edges = map<Id, seq<Id>>

  predicate Closed(edges: Edges) {
    forall n, i :: n in edges && 0 <= i < |edges[n]| ==> edges[n][i] in edges
  }

  /** A walk along edges. */
  predicate Path(edges: Edges, path: seq<Id>) {
    && path != []
    && path[0] in edges
    && (|path| > 1 ==> path[1] in edges[path[0]] && Path(edges, path[1..]))
  }

  ghost predicate Reaches(edges: Edges, a: Id, b: Id) {
    exists path :: Path(edges, path) && path[0] == a && path[|path| - 1] == b
  }

  ghost function Reach(edges: Edges, root: Id): set<Id> {
    set n | n in edges && Reaches(edges, root, n)
  }

  lemma ReachesSelf(edges: Edges, a: Id)
    requires a in edges
    ensures Reaches(edges, a, a)
  {
    assert Path(edges, [a]);
  }

  lemma ReachesVia(edges: Edges, a: Id, child: Id, b: Id)
    requires a in edges && child in edges[a] && Reaches(edges, child, b)
    ensures Reaches(edges, a, b)
  {
    var path :| Path(edges, path) && path[0] == child && path[|path| - 1] == b;
    var longer := [a] + path;
    assert longer[1..] == path;
    assert Path(edges, longer);
  }

  /** A set closed under children that contains the start contains what it reaches. */
  lemma {:induction false} ClosedSetContains(edges: Edges, s: set<Id>, path: seq<Id>)
    requires Path(edges, path) && path[0] in s
    requires forall n, c :: n in s && n in edges && c in edges[n] ==> c in s
    ensures path[|path| - 1] in s
  {
    if |path| > 1 {
      ClosedSetContains(edges, s, path[1..]);
    }
  }

  lemma ReachIsLeast(edges: Edges, s: set<Id>, root: Id)
    requires root in s
    requires forall n, c :: n in s && n in edges && c in edges[n] ==> c in s
    ensures Reach(edges, root) <= s
  {
    forall n | n in Reach(edges, root) ensures n in s {
      var path :| Path(edges, path) && path[0] == root && path[|path| - 1] == n;
      ClosedSetContains(edges, s, path);
    }
  }

  /** Two graphs with the same nodes and the same children, in any order and any
    multiplicity, reach the same nodes. */
  lemma {:induction false} SamePaths(a: Edges, b: Edges, path: seq<Id>)
    requires a.Keys == b.Keys
    requires forall n, c :: n in a && c in a[n] ==> c in b[n]
    requires Path(a, path)
    ensures Path(b, path)
  {
    if |path| > 1 {
      SamePaths(a, b, path[1..]);
    }
  }

  lemma ReachIgnoresOrder(a: Edges, b: Edges, root: Id)
    requires a.Keys == b.Keys
    requires forall n, c :: n in a ==> (c in a[n] <==> c in b[n])
    ensures Reach(a, root) == Reach(b, root)
  {
    forall n | n in a ensures Reaches(a, root, n) <==> Reaches(b, root, n) {
      if Reaches(a, root, n) {
        var path :| Path(a, path) && path[0] == root && path[|path| - 1] == n;
        SamePaths(a, b, path);
      }
      if Reaches(b, root, n) {
        var path :| Path(b, path) && path[0] == root && path[|path| - 1] == n;
        SamePaths(b, a, path);
      }
    }
  }
}
