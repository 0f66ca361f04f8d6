/** Directed multigraphs given by adjacency lists, with reachability and cycles.
    A list may name the same child several times: parallel edges are legal. */
module Graphs {
  import opened Collections

  type Id = string

  datatype Graph = Graph(nodes: set<Id>, edges: map<Id, seq<Id>>)

  function Children(g: Graph, u: Id): seq<Id> {
    if u in g.edges then g.edges[u] else []
  }

  predicate Edge(g: Graph, u: Id, v: Id) {
    v in Children(g, u)
  }

  /** Every edge joins two nodes of the graph. */
  ghost predicate Closed(g: Graph) {
    forall u, v :: Edge(g, u, v) ==> u in g.nodes && v in g.nodes
  }

  ghost predicate Walk(g: Graph, p: seq<Id>) {
    |p| > 0 && forall i, j :: 0 <= i < j < |p| && j == i + 1 ==> Edge(g, p[i], p[j])
  }

  ghost predicate WalkBetween(g: Graph, p: seq<Id>, u: Id, v: Id) {
    Walk(g, p) && p[0] == u && p[|p| - 1] == v
  }

  ghost predicate Reaches(g: Graph, u: Id, v: Id) {
    exists p :: WalkBetween(g, p, u, v)
  }

  /** `u` lies on a directed cycle; a self-loop is one. */
  ghost predicate OnCycle(g: Graph, u: Id) {
    exists v :: Edge(g, u, v) && Reaches(g, v, u)
  }

  ghost predicate Acyclic(g: Graph) {
    forall u :: !OnCycle(g, u)
  }

  /** Some node reaches a directed cycle. */
  ghost predicate ReachesCycle(g: Graph) {
    exists u, v :: u in g.nodes && Reaches(g, u, v) && OnCycle(g, v)
  }

  ghost predicate Valid(g: Graph) {
    Closed(g) && Acyclic(g)
  }

  // ---- Reachability ----

  lemma ReachesSelf(g: Graph, u: Id)
    ensures Reaches(g, u, u)
  {
    assert WalkBetween(g, [u], u, u);
  }

  lemma ReachesTransitive(g: Graph, u: Id, v: Id, w: Id)
    requires Reaches(g, u, v) && Reaches(g, v, w)
    ensures Reaches(g, u, w)
  {
    var p :| WalkBetween(g, p, u, v);
    var q :| WalkBetween(g, q, v, w);
    var r := p + q[1..];
    forall i | 0 <= i < |r| - 1
      ensures Edge(g, r[i], r[i + 1])
    {
      if i >= |p| - 1 {
        assert Edge(g, q[i - (|p| - 1)], q[i - (|p| - 1) + 1]);
      }
    }
    assert WalkBetween(g, r, u, w);
  }

  lemma EdgeReaches(g: Graph, u: Id, v: Id)
    requires Edge(g, u, v)
    ensures Reaches(g, u, v)
  {
    assert WalkBetween(g, [u, v], u, v);
  }

  lemma ReachesThenEdge(g: Graph, u: Id, v: Id, w: Id)
    requires Reaches(g, u, v) && Edge(g, v, w)
    ensures Reaches(g, u, w)
  {
    EdgeReaches(g, v, w);
    ReachesTransitive(g, u, v, w);
  }

  /** A set that keeps the children of its members keeps everything they reach. */
  lemma {:induction false} WalkStaysInside(g: Graph, s: set<Id>, p: seq<Id>, k: nat)
    requires forall u, v :: u in s && Edge(g, u, v) ==> v in s
    requires Walk(g, p) && p[0] in s && k < |p|
    ensures p[k] in s
  {
    if k > 0 {
      WalkStaysInside(g, s, p, k - 1);
      assert Edge(g, p[k - 1], p[k]);
    }
  }

  lemma ReachesStaysInside(g: Graph, s: set<Id>, u: Id, v: Id)
    requires forall x, y :: x in s && Edge(g, x, y) ==> y in s
    requires u in s && Reaches(g, u, v)
    ensures v in s
  {
    var p :| WalkBetween(g, p, u, v);
    WalkStaysInside(g, s, p, |p| - 1);
  }

  lemma ReachesByFirstEdge(g: Graph, u: Id, v: Id) returns (w: Id)
    requires Reaches(g, u, v) && u != v
    ensures Edge(g, u, w) && Reaches(g, w, v)
  {
    var p :| WalkBetween(g, p, u, v);
    w := p[1];
    assert Edge(g, p[0], p[1]);
    var q := p[1..];
    forall i | 0 <= i < |q| - 1 ensures Edge(g, q[i], q[i + 1]) {
      assert Edge(g, p[i + 1], p[i + 2]);
    }
    assert WalkBetween(g, q, w, v);
  }

  /** If `u` is on a cycle, so is one of its children. */
  lemma CycleHasNext(g: Graph, u: Id) returns (c: Id)
    requires OnCycle(g, u)
    ensures Edge(g, u, c) && OnCycle(g, c)
  {
    c :| Edge(g, u, c) && Reaches(g, c, u);
    if c != u {
      var d := ReachesByFirstEdge(g, c, u);
      ReachesThenEdge(g, d, u, c);
    }
  }

  /** In a closed graph, a cycle a node can reach is just a cycle. */
  lemma ClosedReachesCycle(g: Graph)
    requires Closed(g)
    ensures ReachesCycle(g) <==> !Acyclic(g)
  {
    if !Acyclic(g) {
      var u :| OnCycle(g, u);
      var v :| Edge(g, u, v) && Reaches(g, v, u);
      ReachesSelf(g, u);
      assert u in g.nodes && Reaches(g, u, u) && OnCycle(g, u);
    }
  }

  // ---- One more edge ----

  function AddEdge(g: Graph, u: Id, v: Id): Graph {
    g.(edges := g.edges[u := Children(g, u) + [v]])
  }

  lemma AddEdgeEdges(g: Graph, u: Id, v: Id, x: Id, y: Id)
    ensures Edge(AddEdge(g, u, v), x, y) <==> Edge(g, x, y) || (x == u && y == v)
  {
  }

  lemma {:induction false} WalkInLargerGraph(g: Graph, h: Graph, x: Id, y: Id)
    requires forall a, b :: Edge(g, a, b) ==> Edge(h, a, b)
    requires Reaches(g, x, y)
    ensures Reaches(h, x, y)
  {
    var p :| WalkBetween(g, p, x, y);
    assert WalkBetween(h, p, x, y);
  }

  /** A walk that uses the new edge at all gets to `u` with old edges only. */
  lemma {:induction false} WalkUsesNewEdge(g: Graph, u: Id, v: Id, p: seq<Id>)
    requires Walk(AddEdge(g, u, v), p)
    ensures Reaches(g, p[0], p[|p| - 1])
         || (Reaches(g, p[0], u) && Reaches(g, v, p[|p| - 1]))
    decreases |p|
  {
    var n := |p|;
    if n == 1 {
      ReachesSelf(g, p[0]);
    } else {
      var q := p[..n - 1];
      WalkUsesNewEdge(g, u, v, q);
      var w := p[n - 2];
      assert Edge(AddEdge(g, u, v), p[n - 2], p[n - 1]);
      AddEdgeEdges(g, u, v, w, p[n - 1]);
      if Edge(g, w, p[n - 1]) {
        if Reaches(g, p[0], w) {
          ReachesThenEdge(g, p[0], w, p[n - 1]);
        } else {
          ReachesThenEdge(g, v, w, p[n - 1]);
        }
      } else {
        ReachesSelf(g, v);
      }
    }
  }

  /** Into an acyclic graph, an edge may be inserted exactly when its head does
      not already reach its tail. */
  lemma AddEdgeKeepsAcyclicIff(g: Graph, u: Id, v: Id)
    requires Acyclic(g)
    ensures Acyclic(AddEdge(g, u, v)) <==> !Reaches(g, v, u)
  {
    var h := AddEdge(g, u, v);
    forall a, b ensures Edge(h, a, b) <==> Edge(g, a, b) || (a == u && b == v) {
      AddEdgeEdges(g, u, v, a, b);
    }
    if Reaches(g, v, u) {
      WalkInLargerGraph(g, h, v, u);
      assert Edge(h, u, v) && OnCycle(h, u);
    } else {
      forall x ensures !OnCycle(h, x) {
        if OnCycle(h, x) {
          NewCycleNeedsReach(g, u, v, x);
        }
      }
    }
  }

  lemma NewCycleNeedsReach(g: Graph, u: Id, v: Id, x: Id)
    requires Acyclic(g) && OnCycle(AddEdge(g, u, v), x)
    ensures Reaches(g, v, u)
  {
    var h := AddEdge(g, u, v);
    var y :| Edge(h, x, y) && Reaches(h, y, x);
    var p :| WalkBetween(h, p, y, x);
    WalkUsesNewEdge(g, u, v, p);
    AddEdgeEdges(g, u, v, x, y);
    if Edge(g, x, y) {
      assert !Reaches(g, y, x) by {
        assert !OnCycle(g, x);
      }
      ReachesThenEdge(g, v, x, y);
      ReachesTransitive(g, v, y, u);
    } else {
      assert x == u && y == v;
      if !Reaches(g, y, x) {
        ReachesSelf(g, u);
      }
    }
  }

  // ---- Sources ----

  lemma {:induction false} DistinctInSet(p: seq<Id>, s: set<Id>)
    requires Distinct(p) && forall i :: 0 <= i < |p| ==> p[i] in s
    ensures |p| <= |s|
    decreases |p|
  {
    if |p| > 0 {
      var q, last := p[..|p| - 1], p[|p| - 1];
      forall i | 0 <= i < |q| ensures q[i] in s - {last} { assert q[i] == p[i]; }
      DistinctInSet(q, s - {last});
    }
  }

  ghost predicate HasParentIn(g: Graph, s: set<Id>, v: Id) {
    exists u :: u in s && Edge(g, u, v)
  }

  /** Walk backwards for `n` edges inside a set without sources. */
  lemma {:induction false} BackwardWalk(g: Graph, s: set<Id>, n: nat) returns (p: seq<Id>)
    requires s != {}
    requires forall v {:trigger HasParentIn(g, s, v)} :: v in s ==> HasParentIn(g, s, v)
    ensures Walk(g, p) && |p| == n + 1 && forall i :: 0 <= i < |p| ==> p[i] in s
  {
    if n == 0 {
      var v :| v in s;
      p := [v];
    } else {
      var q := BackwardWalk(g, s, n - 1);
      assert HasParentIn(g, s, q[0]);
      var u :| u in s && Edge(g, u, q[0]);
      p := [u] + q;
    }
  }

  lemma WalkSegment(g: Graph, p: seq<Id>, i: nat, j: nat)
    requires Walk(g, p) && i <= j < |p|
    ensures Reaches(g, p[i], p[j])
  {
    var q := p[i..j + 1];
    forall k | 0 <= k < |q| - 1 ensures Edge(g, q[k], q[k + 1]) {
      assert Edge(g, p[i + k], p[i + k + 1]);
    }
    assert WalkBetween(g, q, p[i], p[j]);
  }

  /** A walk longer than the set it stays in goes round a cycle. */
  lemma RepeatIsCycle(g: Graph, p: seq<Id>, s: set<Id>)
    requires Walk(g, p) && |p| > |s| && forall i :: 0 <= i < |p| ==> p[i] in s
    ensures !Acyclic(g)
  {
    if Distinct(p) {
      DistinctInSet(p, s);
    }
    var i, j :| 0 <= i < j < |p| && p[i] == p[j];
    assert Edge(g, p[i], p[i + 1]);
    WalkSegment(g, p, i + 1, j);
    assert OnCycle(g, p[i]);
  }

  /** Every nonempty set of nodes of an acyclic graph has a member without a
      predecessor in the set. */
  lemma AcyclicHasSource(g: Graph, s: set<Id>) returns (v: Id)
    requires Acyclic(g) && s != {}
    ensures v in s && !HasParentIn(g, s, v)
  {
    if forall v {:trigger HasParentIn(g, s, v)} :: v in s ==> HasParentIn(g, s, v) {
      var p := BackwardWalk(g, s, |s|);
      RepeatIsCycle(g, p, s);
    } else {
      v :| v in s && !HasParentIn(g, s, v);
    }
  }

  // ---- Topological orders ----

  ghost predicate ParentsFirst(g: Graph, order: seq<Id>) {
    forall u, j :: 0 <= j < |order| && Edge(g, u, order[j]) ==> u in order[..j]
  }

  /** Each node exactly once, every parent strictly before its children. */
  ghost predicate IsTopologicalOrder(g: Graph, order: seq<Id>) {
    && Distinct(order)
    && (set x | x in order) == g.nodes
    && ParentsFirst(g, order)
  }

  lemma {:induction false} WalkPrecedes(g: Graph, order: seq<Id>, p: seq<Id>, j: nat)
    requires Distinct(order) && ParentsFirst(g, order)
    requires Walk(g, p) && j < |order| && p[|p| - 1] == order[j]
    ensures exists i :: 0 <= i <= j && i + |p| <= j + 1 && order[i] == p[0]
    decreases |p|
  {
    if |p| == 1 {
      assert order[j] == p[0];
    } else {
      var n := |p|;
      assert Edge(g, p[n - 2], p[n - 1]);
      var k :| 0 <= k < j && order[k] == p[n - 2];
      WalkPrecedes(g, order, p[..n - 1], k);
    }
  }

  /** Every strict ancestor of a node precedes it. */
  lemma AncestorsPrecede(g: Graph, order: seq<Id>, u: Id, j: nat)
    requires Distinct(order) && ParentsFirst(g, order)
    requires j < |order| && Reaches(g, u, order[j]) && u != order[j]
    ensures u in order[..j]
  {
    var p :| WalkBetween(g, p, u, order[j]);
    WalkPrecedes(g, order, p, j);
    var i :| 0 <= i <= j && i + |p| <= j + 1 && order[i] == u;
    assert |p| >= 2;
  }

  /** Only an acyclic graph has a topological order. */
  lemma TopologicalOrderImpliesAcyclic(g: Graph, order: seq<Id>)
    requires Closed(g) && IsTopologicalOrder(g, order)
    ensures Acyclic(g)
  {
    forall u ensures !OnCycle(g, u) {
      if OnCycle(g, u) {
        var v :| Edge(g, u, v) && Reaches(g, v, u);
        assert u in (set x | x in order);
        var j :| 0 <= j < |order| && order[j] == u;
        var p :| WalkBetween(g, p, v, u);
        WalkPrecedes(g, order, p, j);
        assert false;
      }
    }
  }

  /** Adding sources one by one orders all nodes of an acyclic graph. */
  lemma {:induction false} ExtendOrder(g: Graph, order: seq<Id>) returns (full: seq<Id>)
    requires Acyclic(g) && Closed(g)
    requires Distinct(order) && ParentsFirst(g, order) && (set x | x in order) <= g.nodes
    ensures IsTopologicalOrder(g, full)
    decreases g.nodes - (set x | x in order)
  {
    var left := g.nodes - (set x | x in order);
    if left == {} {
      assert forall v :: v in g.nodes ==> v in left || v in order;
      full := order;
    } else {
      var v := AcyclicHasSource(g, left);
      var longer := order + [v];
      forall u, j | 0 <= j < |longer| && Edge(g, u, longer[j]) ensures u in longer[..j] {
        assert longer[..j] == order[..j];
        assert u in g.nodes;
        assert j == |order| ==> u in order && order[..j] == order;
      }
      assert (set x | x in longer) == (set x | x in order) + {v};
      full := ExtendOrder(g, longer);
    }
  }

  lemma TopologicalOrderExistsIff(g: Graph)
    requires Closed(g)
    ensures Acyclic(g) <==> exists order :: IsTopologicalOrder(g, order)
  {
    if Acyclic(g) {
      var order := ExtendOrder(g, []);
    }
    forall order | IsTopologicalOrder(g, order) ensures Acyclic(g) {
      TopologicalOrderImpliesAcyclic(g, order);
    }
  }
}
