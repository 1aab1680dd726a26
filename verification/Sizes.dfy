/** The deep size estimate (src/cachau/sizes.py, `estimate_size` and `_walk`).

  A value is a node of an object graph: its own size, and the objects it holds in
  iteration order (keys and values of a dictionary, members, dataclass fields).
  Array-like objects report their own buffer and hold nothing. */
module Sizes {
  import opened Graphs

  datatype Heap = Heap(own: map<Id, int>, edges: Edges)

  ghost predicate WellFormed(heap: Heap) {
    heap.own.Keys == heap.edges.Keys && Closed(heap.edges)
  }

  /** The sum of the own sizes over a set of objects. */
  ghost function SumOwn(own: map<Id, int>, s: set<Id>): int
    requires s <= own.Keys
  {
    if s == {} then 0 else
      var n :| n in s;
      own[n] + SumOwn(own, s - {n})
  }

  lemma {:induction false} SumTakeOut(own: map<Id, int>, s: set<Id>, n: Id)
    requires s <= own.Keys && n in s
    ensures SumOwn(own, s) == own[n] + SumOwn(own, s - {n})
    decreases |s|
  {
    var m :| m in s && SumOwn(own, s) == own[m] + SumOwn(own, s - {m});
    if m != n {
      SumTakeOut(own, s - {m}, n);
      SumTakeOut(own, s - {n}, m);
      assert s - {m} - {n} == s - {n} - {m};
    }
  }

  lemma {:induction false} SumDisjoint(own: map<Id, int>, a: set<Id>, b: set<Id>)
    requires a <= own.Keys && b <= own.Keys && a !! b
    ensures SumOwn(own, a + b) == SumOwn(own, a) + SumOwn(own, b)
    decreases |a|
  {
    if a == {} {
      assert a + b == b;
    } else {
      var n :| n in a;
      SumTakeOut(own, a, n);
      SumTakeOut(own, a + b, n);
      assert a + b - {n} == (a - {n}) + b;
      SumDisjoint(own, a - {n}, b);
    }
  }

  /** The objects seen by a walk are reachable from where it started, and it left
    nothing they hold unseen. */
  ghost predicate Explored(edges: Edges, before: set<Id>, after: set<Id>, from: Id) {
    && before <= after
    && (forall n :: n in after - before ==> n in edges && Reaches(edges, from, n))
    && (forall n, c :: n in after - before && n in edges && c in edges[n] ==> c in after)
  }

  class Walker {
    const heap: Heap
    var seen: set<Id>

    constructor (heap: Heap)
      ensures this.heap == heap && seen == {}
    {
      this.heap := heap;
      seen := {};
    }

    /** The recursive walk; it ends on every finite graph because each call that
      recurses has put one more object in `seen`. */
    method Walk(value: Id) returns (size: int)
      requires WellFormed(heap) && value in heap.edges && seen <= heap.edges.Keys
      modifies this
      ensures seen <= heap.edges.Keys && value in seen
      ensures Explored(heap.edges, old(seen), seen, value)
      ensures size == SumOwn(heap.own, seen - old(seen))
      decreases heap.edges.Keys - seen
    {
      if value in seen {
        return 0;
      }
      ghost var before := seen;
      seen := seen + {value};
      size := heap.own[value];
      SumTakeOut(heap.own, {value}, value);
      assert seen - before == {value};
      ReachesSelf(heap.edges, value);
      var children := heap.edges[value];
      for i := 0 to |children|
        invariant before + {value} <= seen <= heap.edges.Keys
        invariant size == SumOwn(heap.own, seen - before)
        invariant forall n :: n in seen - before ==> Reaches(heap.edges, value, n)
        invariant forall n, c :: n in seen - before && n != value && c in heap.edges[n] ==> c in seen
        invariant forall j :: 0 <= j < i ==> children[j] in seen
      {
        ghost var now := seen;
        var part := Walk(children[i]);
        size := size + part;
        SumDisjoint(heap.own, now - before, seen - now);
        assert (now - before) + (seen - now) == seen - before;
        forall n | n in seen - now ensures Reaches(heap.edges, value, n) {
          ReachesVia(heap.edges, value, children[i], n);
        }
      }
    }
  }

  /** On any finite object graph, cycles and sharing included, the estimate is the
    sum of the own sizes over the objects reachable from the root, each once. */
  method EstimateSize(heap: Heap, root: Id) returns (size: int)
    requires WellFormed(heap) && root in heap.edges
    ensures size == SumOwn(heap.own, Reach(heap.edges, root))
  {
    var walker := new Walker(heap);
    size := walker.Walk(root);
    assert walker.seen - {} == walker.seen;
    ReachIsLeast(heap.edges, walker.seen, root);
    assert walker.seen == Reach(heap.edges, root);
  }

  /** The estimate does not depend on the order in which children are visited. */
  lemma EstimateIgnoresOrder(a: Heap, b: Heap, root: Id)
    requires WellFormed(a) && WellFormed(b) && a.own == b.own
    requires forall n, c :: n in a.edges ==> (c in a.edges[n] <==> c in b.edges[n])
    ensures SumOwn(a.own, Reach(a.edges, root)) == SumOwn(b.own, Reach(b.edges, root))
  {
    ReachIgnoresOrder(a.edges, b.edges, root);
  }
}
