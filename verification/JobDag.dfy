/** The job graph: cycle detection by depth-first search, edge insertion that
    rolls back, and Kahn's topological sort. */
module JobDag {
  import opened Collections
  import opened Graphs
  import opened Jobs
  import opened Results

  datatype Color = White | Gray | Black

  datatype DagError =
    | AlreadyExists(id: Id)
    | ParentNotFound(id: Id)
    | ChildNotFound(id: Id)
    | WouldCreateCycle(parent: Id, child: Id)
    | ContainsCycle

  // ---- Depth-first search ----

  function ColorOf(color: map<Id, Color>, v: Id): Color {
    if v in color then color[v] else White
  }

  ghost function Universe(g: Graph): set<Id> {
    g.nodes + g.edges.Keys + (set u, v | u in g.edges && v in g.edges[u] :: v)
  }

  ghost function Whites(g: Graph, color: map<Id, Color>): set<Id> {
    set v | v in Universe(g) && ColorOf(color, v) == White
  }

  ghost predicate BlackOnlyReachesBlack(g: Graph, color: map<Id, Color>) {
    && (forall b, c :: ColorOf(color, b) == Black && Edge(g, b, c) ==> ColorOf(color, c) == Black)
    && (forall b :: ColorOf(color, b) == Black ==> !OnCycle(g, b))
  }

  /** Gray nodes are those on the path to `v`. */
  ghost predicate GrayReach(g: Graph, color: map<Id, Color>, v: Id) {
    forall x :: ColorOf(color, x) == Gray ==> Reaches(g, x, v)
  }

  /** What an unsuccessful search leaves: the gray nodes are the same and no
      color has gone back. */
  ghost predicate OnlyWhitesBlackened(before: map<Id, Color>, after: map<Id, Color>) {
    forall x :: ColorOf(after, x) == ColorOf(before, x)
             || (ColorOf(before, x) == White && ColorOf(after, x) == Black)
  }

  lemma BlackenKeepsInvariant(g: Graph, color: map<Id, Color>, v: Id)
    requires BlackOnlyReachesBlack(g, color) && ColorOf(color, v) == Gray
    requires forall c :: Edge(g, v, c) ==> ColorOf(color, c) == Black
    ensures BlackOnlyReachesBlack(g, color[v := Black])
  {
    if OnCycle(g, v) {
      var c := CycleHasNext(g, v);
    }
  }

  lemma SearchBlackens(color: map<Id, Color>, v: Id, after: map<Id, Color>)
    requires ColorOf(color, v) == White && OnlyWhitesBlackened(color[v := Gray], after)
    ensures OnlyWhitesBlackened(color, after[v := Black])
  {
    forall x ensures ColorOf(after[v := Black], x) == ColorOf(color, x)
                  || (ColorOf(color, x) == White && ColorOf(after[v := Black], x) == Black) {
      assert x != v ==> ColorOf(color[v := Gray], x) == ColorOf(color, x);
    }
  }

  lemma GrayReachChild(g: Graph, color: map<Id, Color>, root: Id, v: Id, c: Id)
    requires GrayReach(g, color, v) && Reaches(g, root, v) && Edge(g, v, c)
    ensures GrayReach(g, color, c) && Reaches(g, root, c)
  {
    forall x | ColorOf(color, x) == Gray ensures Reaches(g, x, c) {
      ReachesThenEdge(g, x, v, c);
    }
    ReachesThenEdge(g, root, v, c);
  }

  lemma AllBlackNoCycle(g: Graph, color: map<Id, Color>)
    requires BlackOnlyReachesBlack(g, color)
    requires forall v :: v in g.nodes ==> ColorOf(color, v) == Black
    ensures !ReachesCycle(g)
  {
    var blacks := set v | v in color && color[v] == Black;
    forall u, v | u in g.nodes && Reaches(g, u, v) ensures !OnCycle(g, v) {
      ReachesStaysInside(g, blacks, u, v);
    }
  }

  /** The recursive closure of `HasCycle`; `color` is the map it captures. */
  method Dfs(g: Graph, node: Id, color: map<Id, Color>, ghost root: Id)
    returns (found: bool, color': map<Id, Color>)
    requires node in Universe(g) && ColorOf(color, node) == White
    requires root in g.nodes && Reaches(g, root, node)
    requires GrayReach(g, color, node) && BlackOnlyReachesBlack(g, color)
    ensures found ==> ReachesCycle(g)
    ensures !found ==> BlackOnlyReachesBlack(g, color') && ColorOf(color', node) == Black
    ensures !found ==> OnlyWhitesBlackened(color, color')
    decreases Whites(g, color)
  {
    color' := color[node := Gray];
    ghost var entered := color';
    ReachesSelf(g, node);
    var children := Children(g, node);
    for i := 0 to |children|
      invariant GrayReach(g, color', node) && BlackOnlyReachesBlack(g, color')
      invariant OnlyWhitesBlackened(entered, color')
      invariant forall k :: 0 <= k < i ==> ColorOf(color', children[k]) == Black
    {
      var child := children[i];
      match ColorOf(color', child) {
        case Gray =>
          return true, color';
        case White =>
          GrayReachChild(g, color', root, node, child);
          assert node in Whites(g, color) && node !in Whites(g, color');
          found, color' := Dfs(g, child, color', root);
          if found {
            return true, color';
          }
        case Black =>
      }
    }
    BlackenKeepsInvariant(g, color', node);
    SearchBlackens(color, node, color');
    color' := color'[node := Black];
    found := false;
  }

  // ---- In-degrees ----

  /** The targets of all edges leaving `s`, with multiplicity. */
  ghost function Targets(g: Graph, s: set<Id>): multiset<Id> {
    if s == {} then multiset{}
    else
      var u :| u in s;
      multiset(Children(g, u)) + Targets(g, s - {u})
  }

  lemma {:induction false} TargetsRemove(g: Graph, s: set<Id>, x: Id)
    requires x in s
    ensures Targets(g, s) == multiset(Children(g, x)) + Targets(g, s - {x})
    decreases s
  {
    var u :| u in s && Targets(g, s) == multiset(Children(g, u)) + Targets(g, s - {u});
    if u != x {
      TargetsRemove(g, s - {u}, x);
      TargetsRemove(g, s - {x}, u);
      assert s - {u} - {x} == s - {x} - {u};
    }
  }

  lemma {:induction false} TargetsPositiveIff(g: Graph, s: set<Id>, v: Id)
    ensures v in Targets(g, s) <==> HasParentIn(g, s, v)
    decreases s
  {
    if s != {} {
      var u :| u in s && Targets(g, s) == multiset(Children(g, u)) + Targets(g, s - {u});
      TargetsPositiveIff(g, s - {u}, v);
      if HasParentIn(g, s, v) {
        var w :| w in s && Edge(g, w, v);
        if w != u {
          assert w in s - {u};
        }
      }
    }
  }

  ghost function Elems(s: seq<Id>): set<Id> {
    set x | x in s
  }

  ghost predicate DegreesOf(g: Graph, inDegree: map<Id, int>, targets: multiset<Id>) {
    inDegree.Keys == g.nodes && forall v :: v in g.nodes ==> inDegree[v] == targets[v]
  }

  lemma TargetsAdd(g: Graph, s: set<Id>, s': set<Id>, u: Id)
    requires u !in s && s' == s + {u}
    ensures Targets(g, s') == Targets(g, s) + multiset(Children(g, u))
  {
    TargetsRemove(g, s', u);
    assert s' - {u} == s;
  }

  /** Kahn's invariant: `order` is done, `queue` is ready, and the counts are
      those of the edges still to be removed. */
  ghost predicate KahnState(g: Graph, inDegree: map<Id, int>, queue: seq<Id>, order: seq<Id>,
                            targets: multiset<Id>)
  {
    && DegreesOf(g, inDegree, targets)
    && Distinct(order) && Distinct(queue) && Elems(order) !! Elems(queue)
    && Elems(order) + Elems(queue) == (set v | v in g.nodes && inDegree[v] == 0)
    && ParentsFirst(g, order)
  }

  ghost function Remaining(g: Graph, order: seq<Id>): set<Id> {
    g.edges.Keys - Elems(order)
  }

  lemma ReadyNodeIsNext(g: Graph, inDegree: map<Id, int>, queue: seq<Id>, order: seq<Id>)
    requires KahnState(g, inDegree, queue, order, Targets(g, Remaining(g, order))) && |queue| > 0
    ensures var node := queue[0];
      && node in g.nodes && node !in order
      && KahnState(g, inDegree, queue[1..], order + [node],
                   Targets(g, Remaining(g, order + [node])) + multiset(Children(g, node)))
  {
    var node, rest := queue[0], queue[1..];
    var left, left' := Remaining(g, order), Remaining(g, order + [node]);
    assert node in Elems(queue);
    assert Elems(order + [node]) == Elems(order) + {node};
    assert Elems(rest) == Elems(queue) - {node} by {
      assert queue == [node] + rest;
    }
    assert left' == left - {node};
    assert Targets(g, left) == Targets(g, left') + multiset(Children(g, node)) by {
      if node in g.edges {
        TargetsRemove(g, left, node);
      } else {
        assert left' == left && Children(g, node) == [];
        assert multiset(Children(g, node)) == multiset{};
      }
    }
    TargetsPositiveIff(g, left, node);
    ParentsFirstSnoc(g, order, node);
  }

  lemma ParentsFirstSnoc(g: Graph, order: seq<Id>, node: Id)
    requires ParentsFirst(g, order) && !HasParentIn(g, Remaining(g, order), node)
    ensures ParentsFirst(g, order + [node])
  {
    var longer := order + [node];
    forall u, j | 0 <= j < |longer| && Edge(g, u, longer[j])
      ensures u in longer[..j]
    {
      assert longer[..j] == order[..j];
      if j == |order| {
        assert u in g.edges.Keys && u !in Remaining(g, order);
        assert order[..j] == order;
      }
    }
  }

  /** Taking one edge into `child` off the counts; its last one makes it ready. */
  lemma EdgeRemoved(g: Graph, inDegree: map<Id, int>, queue: seq<Id>, order: seq<Id>,
                    targets: multiset<Id>, child: Id)
    requires child in g.nodes
    requires KahnState(g, inDegree, queue, order, targets + multiset{child})
    ensures inDegree[child] > 0
    ensures var lowered := inDegree[child := inDegree[child] - 1];
      KahnState(g, lowered, if lowered[child] == 0 then queue + [child] else queue, order, targets)
  {
    var lowered := inDegree[child := inDegree[child] - 1];
    assert child !in Elems(order) + Elems(queue);
    assert Elems(queue + [child]) == Elems(queue) + {child};
  }

  lemma KahnFinishes(g: Graph, inDegree: map<Id, int>, order: seq<Id>)
    requires Valid(g) && KahnState(g, inDegree, [], order, Targets(g, Remaining(g, order)))
    ensures IsTopologicalOrder(g, order)
  {
    assert Elems([]) == {};
    var left := g.nodes - Elems(order);
    if left != {} {
      var v := AcyclicHasSource(g, left);
      TargetsPositiveIff(g, Remaining(g, order), v);
      assert false;
    }
  }

  // ---- The graph built through its operations ----

  datatype Op = AddJobOp(id: Id) | AddDependencyOp(parent: Id, child: Id)

  ghost function AddJobResult(g: Graph, id: Id): (Graph, Outcome<DagError>) {
    if id in g.nodes then (g, Fail(AlreadyExists(id)))
    else (g.(nodes := g.nodes + {id}), Pass)
  }

  ghost function AddDependencyResult(g: Graph, parent: Id, child: Id): (Graph, Outcome<DagError>) {
    if parent !in g.nodes then (g, Fail(ParentNotFound(parent)))
    else if child !in g.nodes then (g, Fail(ChildNotFound(child)))
    else if ReachesCycle(AddEdge(g, parent, child)) then
      (g.(edges := g.edges[parent := Children(g, parent)]), Fail(WouldCreateCycle(parent, child)))
    else (AddEdge(g, parent, child), Pass)
  }

  ghost function Perform(g: Graph, op: Op): Graph {
    match op
    case AddJobOp(id) => AddJobResult(g, id).0
    case AddDependencyOp(parent, child) => AddDependencyResult(g, parent, child).0
  }

  ghost function PerformAll(ops: seq<Op>): Graph {
    if ops == [] then Graph({}, map[])
    else Perform(PerformAll(ops[..|ops| - 1]), ops[|ops| - 1])
  }

  /** Between existing jobs an insertion succeeds exactly when the child does
      not already reach the parent. */
  lemma AddDependencySucceedsIff(g: Graph, parent: Id, child: Id)
    requires Valid(g) && parent in g.nodes && child in g.nodes
    ensures AddDependencyResult(g, parent, child).1.Pass? <==> !Reaches(g, child, parent)
  {
    var h := AddEdge(g, parent, child);
    AddEdgeKeepsAcyclicIff(g, parent, child);
    forall a, b | Edge(h, a, b) ensures a in h.nodes && b in h.nodes {
      AddEdgeEdges(g, parent, child, a, b);
    }
    ClosedReachesCycle(h);
  }

  /** A rejected insertion leaves every list of children as it was. */
  lemma RejectionChangesNoEdge(g: Graph, parent: Id, child: Id, u: Id)
    requires AddDependencyResult(g, parent, child).1.Fail?
    ensures var h := AddDependencyResult(g, parent, child).0;
            h.nodes == g.nodes && Children(h, u) == Children(g, u)
  {
  }

  /** Adding a job adds a node and no edge; a known identifier changes nothing. */
  lemma AddJobEffect(g: Graph, id: Id)
    ensures var (h, r) := AddJobResult(g, id);
      && h.nodes == g.nodes + {id}
      && (forall u :: Children(h, u) == Children(g, u))
      && (if id in g.nodes then r == Fail(AlreadyExists(id)) && h == g else r.Pass?)
  {
  }

  /** A successful insertion appends the child to its parent's list, and that is
      the only change an insertion makes; which error a missing job gives. */
  lemma AddDependencyEffect(g: Graph, parent: Id, child: Id)
    ensures var (h, r) := AddDependencyResult(g, parent, child);
      && h.nodes == g.nodes
      && (forall u :: Children(h, u) == Children(g, u) + (if r.Pass? && u == parent then [child] else []))
      && (r == Fail(ParentNotFound(parent)) <==> parent !in g.nodes)
      && (r == Fail(ChildNotFound(child)) <==> parent in g.nodes && child !in g.nodes)
      && (r.Pass? || r == Fail(WouldCreateCycle(parent, child)) <==> parent in g.nodes && child in g.nodes)
  {
  }

  /** The i-th call inserts the edge u→v: both jobs are there and v does not
      reach u. */
  ghost predicate Inserts(ops: seq<Op>, i: nat, u: Id, v: Id) {
    && i < |ops| && ops[i] == AddDependencyOp(u, v)
    && var g := PerformAll(ops[..i]); u in g.nodes && v in g.nodes && !Reaches(g, v, u)
  }

  ghost function Insertions(ops: seq<Op>, u: Id, v: Id): set<nat> {
    set i: nat | i < |ops| && Inserts(ops, i, u, v)
  }

  lemma LastInsertion(ops: seq<Op>, u: Id, v: Id)
    requires ops != []
    ensures |Insertions(ops, u, v)|
         == |Insertions(ops[..|ops| - 1], u, v)| + OneIf(Inserts(ops, |ops| - 1, u, v))
  {
    var n := |ops| - 1;
    var init := ops[..n];
    forall i: nat | i < n ensures Inserts(ops, i, u, v) <==> Inserts(init, i, u, v) {
      assert ops[..i] == init[..i];
    }
    assert Insertions(ops, u, v) == Insertions(init, u, v) + (if Inserts(ops, n, u, v) then {n} else {});
  }

  /** Whatever the calls: the nodes are the jobs added, and an edge stands in the
      graph as often as it was inserted between existing jobs without closing a
      cycle. */
  lemma {:induction false} GraphIsWhatWasInserted(ops: seq<Op>, u: Id, v: Id)
    ensures u in PerformAll(ops).nodes <==> AddJobOp(u) in ops
    ensures multiset(Children(PerformAll(ops), u))[v] == |Insertions(ops, u, v)|
  {
    if ops == [] {
      assert Insertions(ops, u, v) == {};
    } else {
      var n := |ops| - 1;
      GraphIsWhatWasInserted(ops[..n], u, v);
      LastInsertion(ops, u, v);
      assert ops == ops[..n] + [ops[n]];
      EveryRunIsValid(ops[..n]);
      EffectOfCall(PerformAll(ops[..n]), ops[n], u, v);
    }
  }

  lemma EffectOfCall(g: Graph, op: Op, u: Id, v: Id)
    requires Valid(g)
    ensures u in Perform(g, op).nodes <==> u in g.nodes || op == AddJobOp(u)
    ensures multiset(Children(Perform(g, op), u))[v]
         == multiset(Children(g, u))[v]
            + OneIf(op == AddDependencyOp(u, v) && u in g.nodes && v in g.nodes && !Reaches(g, v, u))
  {
    match op
    case AddJobOp(id) => AddJobEffect(g, id);
    case AddDependencyOp(parent, child) =>
      AddDependencyEffect(g, parent, child);
      if parent in g.nodes && child in g.nodes {
        AddDependencySucceedsIff(g, parent, child);
      }
      assert multiset(Children(g, u) + [child])[v] == multiset(Children(g, u))[v] + multiset([child])[v];
  }

  lemma SameChildrenSameCycles(g: Graph, h: Graph)
    requires Acyclic(g) && forall u :: Children(h, u) == Children(g, u)
    ensures Acyclic(h)
  {
    forall u ensures !OnCycle(h, u) {
      if OnCycle(h, u) {
        var v :| Edge(h, u, v) && Reaches(h, v, u);
        assert forall a, b :: Edge(h, a, b) <==> Edge(g, a, b);
        WalkInLargerGraph(h, g, v, u);
        assert Edge(g, u, v) && OnCycle(g, u);
      }
    }
  }

  lemma PerformKeepsValid(g: Graph, op: Op)
    requires Valid(g)
    ensures Valid(Perform(g, op))
  {
    var h := Perform(g, op);
    match op
    case AddJobOp(id) =>
      assert forall u :: Children(h, u) == Children(g, u);
      SameChildrenSameCycles(g, h);
      assert forall a, b :: Edge(h, a, b) <==> Edge(g, a, b);
    case AddDependencyOp(parent, child) =>
      if AddDependencyResult(g, parent, child).1.Pass? {
        AddDependencySucceedsIff(g, parent, child);
        AddEdgeKeepsAcyclicIff(g, parent, child);
        forall a, b | Edge(h, a, b) ensures a in h.nodes && b in h.nodes {
          AddEdgeEdges(g, parent, child, a, b);
        }
      } else {
        forall u ensures Children(h, u) == Children(g, u) {
          RejectionChangesNoEdge(g, parent, child, u);
        }
        SameChildrenSameCycles(g, h);
        assert forall a, b :: Edge(h, a, b) <==> Edge(g, a, b);
      }
  }

  /** Whatever the calls, the graph stays closed and acyclic. */
  lemma {:induction false} EveryRunIsValid(ops: seq<Op>)
    ensures Valid(PerformAll(ops))
  {
    if ops == [] {
      var g := PerformAll(ops);
      assert forall u, v :: !Edge(g, u, v);
    } else {
      EveryRunIsValid(ops[..|ops| - 1]);
      PerformKeepsValid(PerformAll(ops[..|ops| - 1]), ops[|ops| - 1]);
    }
  }

  class DAG {
    var nodes: map<Id, Job>
    var edges: map<Id, seq<Id>>

    function G(): Graph
      reads this
    {
      Graph(nodes.Keys, edges)
    }

    constructor ()
      ensures G() == PerformAll([])
      ensures nodes == map[]
    {
      nodes, edges := map[], map[];
    }

    method AddJob(job: Job) returns (r: Outcome<DagError>)
      modifies this
      ensures (G(), r) == AddJobResult(old(G()), job.id)
      ensures nodes == if r.Pass? then old(nodes)[job.id := job] else old(nodes)
    {
      if job.id in nodes {
        return Fail(AlreadyExists(job.id));
      }
      nodes := nodes[job.id := job];
      assert nodes.Keys == old(nodes.Keys) + {job.id};
      r := Pass;
    }

    method AddDependency(parent: Id, child: Id) returns (r: Outcome<DagError>)
      modifies this
      ensures (G(), r) == AddDependencyResult(old(G()), parent, child)
      ensures nodes == old(nodes)
    {
      if parent !in nodes {
        return Fail(ParentNotFound(parent));
      }
      if child !in nodes {
        return Fail(ChildNotFound(child));
      }
      edges := edges[parent := Children(G(), parent) + [child]];
      var cyclic := HasCycle();
      if cyclic {
        edges := edges[parent := edges[parent][..|edges[parent]| - 1]];
        assert edges[parent] == Children(old(G()), parent);
        assert edges == old(edges)[parent := Children(old(G()), parent)];
        return Fail(WouldCreateCycle(parent, child));
      }
      r := Pass;
    }

    method HasCycle() returns (cyclic: bool)
      ensures cyclic <==> ReachesCycle(G())
    {
      var g := G();
      var color := map id | id in nodes :: White;
      var todo := nodes.Keys;
      while todo != {}
        invariant todo <= nodes.Keys
        invariant BlackOnlyReachesBlack(g, color)
        invariant forall v :: ColorOf(color, v) != Gray
        invariant forall v :: v in nodes.Keys - todo ==> ColorOf(color, v) == Black
        decreases todo
      {
        var id :| id in todo;
        todo := todo - {id};
        if ColorOf(color, id) == White {
          ReachesSelf(g, id);
          var found;
          found, color := Dfs(g, id, color, id);
          if found {
            return true;
          }
        }
      }
      AllBlackNoCycle(g, color);
      cyclic := false;
    }

    /** The inner counting loop. */
    static method CountChildren(g: Graph, children: seq<Id>, inDegree0: map<Id, int>, ghost counted: multiset<Id>)
      returns (inDegree: map<Id, int>)
      requires forall i :: 0 <= i < |children| ==> children[i] in g.nodes
      requires DegreesOf(g, inDegree0, counted)
      ensures DegreesOf(g, inDegree, counted + multiset(children))
    {
      inDegree := inDegree0;
      assert counted + multiset(children[..0]) == counted;
      for i := 0 to |children|
        invariant DegreesOf(g, inDegree, counted + multiset(children[..i]))
      {
        assert children[..i + 1] == children[..i] + [children[i]];
        assert counted + multiset(children[..i + 1]) == counted + multiset(children[..i]) + multiset{children[i]};
        inDegree := inDegree[children[i] := inDegree[children[i]] + 1];
      }
      assert children[..|children|] == children;
    }

    /** `inDegree` after the two counting loops. */
    method CountInDegrees() returns (inDegree: map<Id, int>)
      requires Closed(G())
      ensures DegreesOf(G(), inDegree, Targets(G(), edges.Keys))
    {
      var g := G();
      inDegree := map id | id in nodes :: 0;
      var todo := edges.Keys;
      assert edges.Keys - todo == {};
      while todo != {}
        invariant todo <= edges.Keys
        invariant DegreesOf(g, inDegree, Targets(g, edges.Keys - todo))
        decreases todo
      {
        var u :| u in todo;
        ghost var counted := Targets(g, edges.Keys - todo);
        TargetsAdd(g, edges.Keys - todo, edges.Keys - (todo - {u}), u);
        todo := todo - {u};
        var children := edges[u];
        forall i | 0 <= i < |children| ensures children[i] in g.nodes {
          assert Edge(g, u, children[i]);
        }
        inDegree := CountChildren(g, children, inDegree, counted);
      }
      assert edges.Keys - todo == edges.Keys;
    }

    /** The nodes that start in the queue. */
    method FirstQueue(inDegree: map<Id, int>) returns (queue: seq<Id>)
      ensures Distinct(queue)
      ensures forall v :: v in queue <==> v in inDegree && inDegree[v] == 0
    {
      queue := [];
      var todo := inDegree.Keys;
      while todo != {}
        invariant todo <= inDegree.Keys && Distinct(queue)
        invariant forall v :: v in queue <==> v in inDegree.Keys - todo && inDegree[v] == 0
        decreases todo
      {
        var id :| id in todo;
        todo := todo - {id};
        if inDegree[id] == 0 {
          queue := queue + [id];
        }
      }
    }

    /** The inner loop of Kahn's algorithm, after `node` has joined `order`. */
    static method ReleaseChildren(g: Graph, children: seq<Id>, inDegree0: map<Id, int>, queue0: seq<Id>,
                                  ghost order: seq<Id>, ghost left: multiset<Id>)
      returns (inDegree: map<Id, int>, queue: seq<Id>)
      requires forall c :: c in children ==> c in g.nodes
      requires KahnState(g, inDegree0, queue0, order, left + multiset(children))
      ensures KahnState(g, inDegree, queue, order, left)
    {
      inDegree, queue := inDegree0, queue0;
      assert children[0..] == children;
      for i := 0 to |children|
        invariant KahnState(g, inDegree, queue, order, left + multiset(children[i..]))
      {
        assert children[i..] == [children[i]] + children[i + 1..];
        assert left + multiset(children[i..]) == left + multiset(children[i + 1..]) + multiset{children[i]};
        EdgeRemoved(g, inDegree, queue, order, left + multiset(children[i + 1..]), children[i]);
        inDegree := inDegree[children[i] := inDegree[children[i]] - 1];
        if inDegree[children[i]] == 0 {
          queue := queue + [children[i]];
        }
      }
      assert left + multiset(children[|children|..]) == left;
    }

    method TopologicalSort() returns (r: Result<seq<Id>, DagError>)
      requires Closed(G())
      ensures r == Err(ContainsCycle) || r.Ok?
      ensures r.Ok? <==> Acyclic(G())
      ensures r.Ok? ==> IsTopologicalOrder(G(), r.value)
    {
      var g := G();
      var cyclic := HasCycle();
      ClosedReachesCycle(g);
      if cyclic {
        return Err(ContainsCycle);
      }
      var inDegree := CountInDegrees();
      var queue := FirstQueue(inDegree);
      var order := [];
      assert Remaining(g, order) == edges.Keys;
      assert Elems(order) == {};
      while |queue| > 0
        invariant KahnState(g, inDegree, queue, order, Targets(g, Remaining(g, order)))
        decreases g.nodes - Elems(order)
      {
        ReadyNodeIsNext(g, inDegree, queue, order);
        var node := queue[0];
        assert node in g.nodes - Elems(order);
        queue := queue[1..];
        order := order + [node];
        forall c | c in Children(g, node) ensures c in g.nodes {
          assert Edge(g, node, c);
        }
        inDegree, queue := ReleaseChildren(g, Children(g, node), inDegree, queue, order,
                                           Targets(g, Remaining(g, order)));
      }
      KahnFinishes(g, inDegree, order);
      r := Ok(order);
    }
  }
}
