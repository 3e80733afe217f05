/** The lineage graph of an evidence artifact: the cycle test by repeated removal of sources, and
    the expansion that finds what is reachable. */
module Lineage {
  import opened Frames

  type Node = nat
  datatype Edge = Edge(upstream: Node, downstream: Node)

  // ---- what the algorithms are about ------------------------------------------------

  /** Consecutive nodes of `p` are joined by edges. */
  ghost predicate IsWalk(edges: seq<Edge>, p: seq<Node>) {
    p != [] && forall i, j | 0 <= i && j == i + 1 && j < |p| :: Edge(p[i], p[j]) in edges
  }

  ghost predicate HasCycle(edges: seq<Edge>) {
    exists p: seq<Node> :: |p| >= 2 && IsWalk(edges, p) && p[0] == p[|p| - 1]
  }

  /** An edge leaves a node that is neither listed nor the end of any edge. */
  ghost predicate HasStray(nodes: seq<Node>, edges: seq<Edge>) {
    exists e :: e in edges && e.upstream !in nodes && forall f | f in edges :: f.downstream != e.upstream
  }

  ghost predicate Reaches(edges: seq<Edge>, sources: set<Node>, v: Node) {
    exists p: seq<Node> :: IsWalk(edges, p) && p[0] in sources && p[|p| - 1] == v
  }

  // ---- counting edges ---------------------------------------------------------------

  /** Edges into `v` from nodes not yet visited. */
  function Pending(edges: seq<Edge>, v: Node, visited: set<Node>): nat {
    if edges == [] then 0
    else
      var e := edges[|edges| - 1];
      Pending(edges[..|edges| - 1], v, visited) + if e.downstream == v && e.upstream !in visited then 1 else 0
  }

  /** The ends of the edges that leave `u`, one per edge. */
  function Successors(edges: seq<Edge>, u: Node): seq<Node> {
    if edges == [] then []
    else
      var e := edges[|edges| - 1];
      Successors(edges[..|edges| - 1], u) + if e.upstream == u then [e.downstream] else []
  }

  lemma {:induction false} PendingPositive(edges: seq<Edge>, v: Node, visited: set<Node>)
    ensures Pending(edges, v, visited) > 0 <==> exists u :: Edge(u, v) in edges && u !in visited
  {
    if edges != [] {
      var n := |edges| - 1;
      PendingPositive(edges[..n], v, visited);
      assert edges == edges[..n] + [edges[n]];
      if edges[n].downstream == v && edges[n].upstream !in visited {
        assert Edge(edges[n].upstream, v) in edges;
      }
    }
  }

  /** Visiting `u` settles one pending edge for each of its successors. */
  lemma {:induction false} VisitSettles(edges: seq<Edge>, u: Node, v: Node, visited: set<Node>)
    requires u !in visited
    ensures Pending(edges, v, visited) == Pending(edges, v, visited + {u}) + multiset(Successors(edges, u))[v]
  {
    if edges != [] {
      VisitSettles(edges[..|edges| - 1], u, v, visited);
    }
  }

  function Elements(s: seq<Node>): set<Node> { set u | u in s }

  // ---- order and cycles -------------------------------------------------------------

  /** Every edge leads forward in `order`. */
  ghost predicate Ordered(edges: seq<Edge>, order: seq<Node>) {
    && (forall i, j | 0 <= i < j < |order| :: order[i] != order[j])
    && forall u, j | 0 <= j < |order| && Edge(u, order[j]) in edges :: u in order[..j]
  }

  lemma {:induction false} WalkClimbs(edges: seq<Edge>, order: seq<Node>, p: seq<Node>, k: nat, j: nat)
    requires Ordered(edges, order) && IsWalk(edges, p) && 0 < k < |p|
    requires j < |order| && p[k] == order[j]
    ensures p[0] in order[..j]
  {
    assert Edge(p[k - 1], order[j]) in edges;
    var i :| 0 <= i < j && order[i] == p[k - 1];
    if k > 1 {
      WalkClimbs(edges, order, p, k - 1, i);
    }
  }

  lemma OrderedIsAcyclic(edges: seq<Edge>, order: seq<Node>)
    requires Ordered(edges, order) && forall e | e in edges :: e.downstream in order
    ensures !HasCycle(edges)
  {
    if HasCycle(edges) {
      var p: seq<Node> :| |p| >= 2 && IsWalk(edges, p) && p[0] == p[|p| - 1];
      var n := |p| - 1;
      assert Edge(p[n - 1], p[n]) in edges;
      var j :| 0 <= j < |order| && order[j] == p[n];
      WalkClimbs(edges, order, p, n, j);
    }
  }

  /** An edge leads from `rest` to `v`. */
  ghost predicate Fed(edges: seq<Edge>, rest: set<Node>, v: Node) {
    exists u :: u in rest && Edge(u, v) in edges
  }

  /** Walking backwards inside a finite set that always offers a predecessor closes a cycle. */
  lemma {:induction false} BackwardsCloses(edges: seq<Edge>, rest: set<Node>, p: seq<Node>)
    requires IsWalk(edges, p) && forall i | 0 <= i < |p| :: p[i] in rest
    requires forall i, j | 0 <= i < j < |p| :: p[i] != p[j]
    requires forall v | v in rest :: Fed(edges, rest, v)
    ensures HasCycle(edges)
    decreases |rest| - |p|
  {
    assert p[0] in rest && Fed(edges, rest, p[0]);
    var u :| u in rest && Edge(u, p[0]) in edges;
    DistinctFit(p, rest);
    if k :| 0 <= k < |p| && p[k] == u {
      var c := [u] + p[..k + 1];
      assert IsWalk(edges, c);
      assert c[0] == c[|c| - 1];
    } else {
      var q := [u] + p;
      assert IsWalk(edges, q);
      DistinctFit(q, rest);
      BackwardsCloses(edges, rest, q);
    }
  }

  lemma {:induction false} DistinctFit(p: seq<Node>, s: set<Node>)
    requires forall i | 0 <= i < |p| :: p[i] in s
    requires forall i, j | 0 <= i < j < |p| :: p[i] != p[j]
    ensures |p| <= |s|
  {
    if p != [] {
      DistinctFit(p[1..], s - {p[0]});
    }
  }

  /** The nodes the algorithm knows: those listed, and the ends of edges. */
  ghost predicate Known(nodes: seq<Node>, edges: seq<Edge>, known: set<Node>) {
    forall v :: v in known <==> v in nodes || exists e :: e in edges && e.downstream == v
  }

  ghost predicate DegreesCount(edges: seq<Edge>, indegree: map<Node, nat>, visited: set<Node>) {
    forall v | v in indegree :: indegree[v] == Pending(edges, v, visited)
  }

  // ---- the cycle test ---------------------------------------------------------------

  function Get<V>(m: map<Node, V>, k: Node, default: V): V { if k in m then m[k] else default }

  function Ascending(): (Node, Node) -> bool { (a: Node, b: Node) => a < b }

  /** Ascending order, as `sorted` gives it. */
  function SortNodes(s: seq<Node>): seq<Node> { Sort(Ascending(), s) }

  lemma SortNodesAscend(s: seq<Node>)
    ensures multiset(SortNodes(s)) == multiset(s)
    ensures forall i, j | 0 <= i < j < |SortNodes(s)| :: SortNodes(s)[i] <= SortNodes(s)[j]
  {
    var r := SortNodes(s);
    SortSorts(Ascending(), s);
    forall i, j | 0 <= i < j < |r| ensures r[i] <= r[j] {
      assert !Ascending()(r[j], r[i]);
    }
  }

  /** Degrees and adjacency lists of the graph. */
  method Tabulate(nodes: seq<Node>, edges: seq<Edge>) returns (adjacency: map<Node, seq<Node>>, indegree: map<Node, nat>)
    ensures forall u :: Get(adjacency, u, []) == Successors(edges, u)
    ensures Known(nodes, edges, indegree.Keys)
    ensures DegreesCount(edges, indegree, {})
  {
    adjacency := map[];
    indegree := map v | v in nodes :: 0;
    for i := 0 to |edges|
      invariant forall u :: Get(adjacency, u, []) == Successors(edges[..i], u)
      invariant Known(nodes, edges[..i], indegree.Keys)
      invariant DegreesCount(edges[..i], indegree, {})
    {
      var e := edges[i];
      assert edges[..i + 1][..i] == edges[..i];
      assert edges[..i + 1] == edges[..i] + [e];
      PendingPositive(edges[..i], e.downstream, {});
      adjacency := adjacency[e.upstream := Get(adjacency, e.upstream, []) + [e.downstream]];
      indegree := indegree[e.downstream := Get(indegree, e.downstream, 0) + 1];
    }
    assert edges[..|edges|] == edges;
  }

  /** What the loop knows: exactly the nodes without pending edges are queued or visited. */
  ghost predicate Progress(edges: seq<Edge>, indegree: map<Node, nat>, queue: seq<Node>, order: seq<Node>) {
    && Ordered(edges, order)
    && (forall i, j | 0 <= i < j < |queue| :: queue[i] != queue[j])
    && (forall v | v in queue :: v !in order)
    && (forall v | v in queue || v in order :: v in indegree && indegree[v] == 0)
    && (forall v | v in indegree && indegree[v] == 0 :: v in queue || v in order)
  }

  /** Whatever the nodes and edges, repeated or looping edges included: the answer is yes exactly
      if there is a directed cycle, or an edge that leaves an unknown node. */
  method LineageHasCycle(nodes: seq<Node>, edges: seq<Edge>) returns (cyclic: bool)
    ensures cyclic <==> HasCycle(edges) || HasStray(nodes, edges)
  {
    var adjacency, indegree := Tabulate(nodes, edges);
    ghost var all := indegree.Keys;
    var queue := QueueOf(indegree);
    var visited := 0;
    ghost var order: seq<Node> := [];
    assert Elements(order) == {};
    while queue != []
      invariant indegree.Keys == all && visited == |order|
      invariant Progress(edges, indegree, queue, order)
      invariant DegreesCount(edges, indegree, Elements(order))
      decreases |all| - |order|
    {
      ghost var node := queue[0];
      indegree, queue := Visit(nodes, edges, adjacency, indegree, queue, order);
      visited := visited + 1;
      order := order + [node];
      DistinctFit(order, all);
    }
    cyclic := visited != |indegree|;
    Verdict(nodes, edges, indegree, order);
  }

  /** Takes the first node of the queue and settles its edges in ascending order. */
  method Visit(ghost nodes: seq<Node>, ghost edges: seq<Edge>, adjacency: map<Node, seq<Node>>, indegree: map<Node, nat>,
               queue: seq<Node>, ghost order: seq<Node>) returns (indegree': map<Node, nat>, queue': seq<Node>)
    requires forall u :: Get(adjacency, u, []) == Successors(edges, u)
    requires Known(nodes, edges, indegree.Keys) && DegreesCount(edges, indegree, Elements(order))
    requires queue != [] && Progress(edges, indegree, queue, order)
    ensures indegree'.Keys == indegree.Keys && Progress(edges, indegree', queue', order + [queue[0]])
    ensures DegreesCount(edges, indegree', Elements(order + [queue[0]]))
  {
    var node := queue[0];
    Popped(nodes, edges, indegree, queue, order);
    var downstream := SortNodes(Get(adjacency, node, []));
    SortNodesAscend(Get(adjacency, node, []));
    SameMembers(downstream, Successors(edges, node));
    indegree', queue' := Relax(edges, downstream, indegree, queue[1..], order + [node]);
  }

  lemma SameMembers(a: seq<Node>, b: seq<Node>)
    requires multiset(a) == multiset(b)
    ensures forall v | v in a :: v in b
  {
    forall v | v in a ensures v in b {
      assert v in multiset(a);
    }
  }

  lemma {:induction false} SuccessorsAreEnds(edges: seq<Edge>, u: Node)
    ensures forall v | v in Successors(edges, u) :: Edge(u, v) in edges
  {
    if edges != [] {
      SuccessorsAreEnds(edges[..|edges| - 1], u);
    }
  }

  /** Taking the first node of the queue: it has no pending edge, so it may come next in the order,
      and its own edges are settled one by one. */
  lemma Popped(nodes: seq<Node>, edges: seq<Edge>, indegree: map<Node, nat>, queue: seq<Node>, order: seq<Node>)
    requires queue != [] && Progress(edges, indegree, queue, order)
    requires DegreesCount(edges, indegree, Elements(order))
    requires Known(nodes, edges, indegree.Keys)
    ensures var node, order' := queue[0], order + [queue[0]];
            && Ordered(edges, order')
            && (forall v | v in queue[1..] :: v !in order')
            && (forall v | v in indegree :: indegree[v] == Pending(edges, v, Elements(order')) + multiset(Successors(edges, node))[v])
            && (forall v | v in Successors(edges, node) :: v in indegree)
  {
    var node := queue[0];
    var order' := order + [node];
    assert Elements(order') == Elements(order) + {node};
    forall v | v in indegree
      ensures indegree[v] == Pending(edges, v, Elements(order')) + multiset(Successors(edges, node))[v]
    {
      VisitSettles(edges, node, v, Elements(order));
    }
    PendingPositive(edges, node, Elements(order));
    forall u, j | 0 <= j < |order'| && Edge(u, order'[j]) in edges ensures u in order'[..j] {
      if j < |order| {
        assert order'[..j] == order[..j];
      } else {
        assert order'[..j] == order;
      }
    }
    SuccessorsAreEnds(edges, node);
  }

  method QueueOf(indegree: map<Node, nat>) returns (queue: seq<Node>)
    ensures forall i, j | 0 <= i < j < |queue| :: queue[i] < queue[j]
    ensures forall v :: v in queue <==> v in indegree && indegree[v] == 0
  {
    var rest := set v | v in indegree && indegree[v] == 0;
    ghost var all := rest;
    var free: seq<Node> := [];
    while rest != {}
      invariant rest <= all && multiset(free) == multiset(all - rest)
      decreases rest
    {
      var v :| v in rest;
      free := free + [v];
      assert all - (rest - {v}) == (all - rest) + {v};
      rest := rest - {v};
    }
    assert all - rest == all;
    queue := SortNodes(free);
    SortNodesAscend(free);
    CountsOfSet(queue, all);
  }

  lemma CountsOfSet(queue: seq<Node>, all: set<Node>)
    requires multiset(queue) == multiset(all)
    requires forall i, j | 0 <= i < j < |queue| :: queue[i] <= queue[j]
    ensures forall v :: v in queue <==> v in all
    ensures forall i, j | 0 <= i < j < |queue| :: queue[i] < queue[j]
  {
    forall v ensures v in queue <==> v in all {
      assert v in queue <==> v in multiset(queue);
    }
    forall i, j | 0 <= i < j < |queue| ensures queue[i] != queue[j] {
      assert queue == queue[..j] + queue[j..];
      assert multiset(queue[..j])[queue[i]] >= 1 && multiset(queue[j..])[queue[j]] >= 1;
      assert multiset(queue)[queue[i]] >= 1 && multiset(all)[queue[i]] <= 1;
    }
  }

  /** One settled edge: a node without further pending edges joins the queue. */
  lemma Settled(edges: seq<Edge>, indegree: map<Node, nat>, queue: seq<Node>, order: seq<Node>, v: Node)
    requires Progress(edges, indegree, queue, order) && v in indegree && indegree[v] > 0
    ensures Progress(edges, indegree[v := indegree[v] - 1], if indegree[v] == 1 then queue + [v] else queue, order)
  {
  }

  /** The degrees still count the edges in `rest`, which leave a visited node. */
  ghost predicate Owes(edges: seq<Edge>, indegree: map<Node, nat>, visited: set<Node>, rest: seq<Node>) {
    forall v | v in indegree :: indegree[v] == Pending(edges, v, visited) + multiset(rest)[v]
  }

  lemma OwesLess(edges: seq<Edge>, indegree: map<Node, nat>, visited: set<Node>, rest: seq<Node>)
    requires rest != [] && Owes(edges, indegree, visited, rest) && rest[0] in indegree
    ensures indegree[rest[0]] > 0
    ensures Owes(edges, indegree[rest[0] := indegree[rest[0]] - 1], visited, rest[1..])
  {
    assert rest == [rest[0]] + rest[1..];
  }

  function Decrement(indegree: map<Node, nat>, v: Node): map<Node, nat>
    requires v in indegree && indegree[v] > 0
  {
    indegree[v := indegree[v] - 1]
  }

  function Enqueue(indegree: map<Node, nat>, queue: seq<Node>, v: Node): seq<Node> {
    if v in indegree && indegree[v] == 0 then queue + [v] else queue
  }

  lemma RelaxStep(edges: seq<Edge>, indegree: map<Node, nat>, queue: seq<Node>, order: seq<Node>, downstream: seq<Node>, i: nat)
    requires Progress(edges, indegree, queue, order) && i < |downstream| && downstream[i] in indegree
    requires Owes(edges, indegree, Elements(order), downstream[i..])
    ensures var v := downstream[i];
            && indegree[v] > 0 && Decrement(indegree, v).Keys == indegree.Keys
            && Progress(edges, Decrement(indegree, v), Enqueue(Decrement(indegree, v), queue, v), order)
            && Owes(edges, Decrement(indegree, v), Elements(order), downstream[i + 1..])
  {
    assert downstream[i..][1..] == downstream[i + 1..];
    OwesLess(edges, indegree, Elements(order), downstream[i..]);
    Settled(edges, indegree, queue, order, downstream[i]);
  }

  lemma OwesNothing(edges: seq<Edge>, indegree: map<Node, nat>, visited: set<Node>, rest: seq<Node>)
    requires Owes(edges, indegree, visited, rest) && rest == []
    ensures DegreesCount(edges, indegree, visited)
  {
  }

  /** Settle the edges of a visited node and queue what becomes free. */
  method Relax(ghost edges: seq<Edge>, downstream: seq<Node>, indegree: map<Node, nat>, queue: seq<Node>, ghost order: seq<Node>)
    returns (indegree': map<Node, nat>, queue': seq<Node>)
    requires Progress(edges, indegree, queue, order)
    requires Owes(edges, indegree, Elements(order), downstream)
    requires forall v | v in downstream :: v in indegree
    ensures indegree'.Keys == indegree.Keys && Progress(edges, indegree', queue', order)
    ensures DegreesCount(edges, indegree', Elements(order))
  {
    indegree', queue' := indegree, queue;
    assert downstream[0..] == downstream;
    for i := 0 to |downstream|
      invariant indegree'.Keys == indegree.Keys && Progress(edges, indegree', queue', order)
      invariant Owes(edges, indegree', Elements(order), downstream[i..])
    {
      var v := downstream[i];
      assert v in indegree'.Keys;
      RelaxStep(edges, indegree', queue', order, downstream, i);
      indegree' := Decrement(indegree', v);
      queue' := Enqueue(indegree', queue', v);
    }
    OwesNothing(edges, indegree', Elements(order), downstream[|downstream|..]);
  }

  /** Every node left over has a predecessor that is left over too, or unknown. */
  lemma LeftOver(nodes: seq<Node>, edges: seq<Edge>, known: set<Node>, rest: set<Node>, visited: set<Node>, v: Node)
    requires rest == known - visited && v in rest && Pending(edges, v, visited) > 0
    requires Known(nodes, edges, known)
    requires !HasStray(nodes, edges)
    ensures Fed(edges, rest, v)
  {
    PendingPositive(edges, v, visited);
    var u :| Edge(u, v) in edges && u !in visited;
    var e := Edge(u, v);
    assert e in edges && (e.upstream in nodes || exists f :: f in edges && f.downstream == e.upstream);
  }

  lemma StrayBlocks(nodes: seq<Node>, edges: seq<Edge>, known: set<Node>, visited: set<Node>)
    requires Known(nodes, edges, known)
    requires visited <= known && HasStray(nodes, edges)
    ensures exists v :: v in known && Pending(edges, v, visited) > 0
  {
    var e :| e in edges && e.upstream !in nodes && forall f | f in edges :: f.downstream != e.upstream;
    assert e.upstream !in known;
    assert Edge(e.upstream, e.downstream) in edges;
    PendingPositive(edges, e.downstream, visited);
  }

  lemma AllVisited(nodes: seq<Node>, edges: seq<Edge>, known: set<Node>, order: seq<Node>)
    requires Known(nodes, edges, known) && Ordered(edges, order) && known <= Elements(order)
    ensures !HasCycle(edges)
  {
    forall e | e in edges ensures e.downstream in order {
      assert e.downstream in known;
    }
    OrderedIsAcyclic(edges, order);
  }

  lemma SomeLeftOver(nodes: seq<Node>, edges: seq<Edge>, known: set<Node>, visited: set<Node>)
    requires Known(nodes, edges, known) && !HasStray(nodes, edges) && known - visited != {}
    requires forall v | v in known - visited :: Pending(edges, v, visited) > 0
    ensures HasCycle(edges)
  {
    var rest := known - visited;
    forall v | v in rest ensures Fed(edges, rest, v) {
      LeftOver(nodes, edges, known, rest, visited, v);
    }
    var v :| v in rest;
    BackwardsCloses(edges, rest, [v]);
  }

  /** With the queue empty, exactly the nodes not visited have pending edges. */
  lemma NothingQueued(edges: seq<Edge>, indegree: map<Node, nat>, order: seq<Node>)
    requires Progress(edges, indegree, [], order) && DegreesCount(edges, indegree, Elements(order))
    ensures Elements(order) <= indegree.Keys
    ensures forall v | v in indegree.Keys :: v in Elements(order) <==> Pending(edges, v, Elements(order)) == 0
  {
  }

  /** All nodes visited: an order without cycles.  Some left over: a cycle or an unknown node. */
  lemma Verdict(nodes: seq<Node>, edges: seq<Edge>, indegree: map<Node, nat>, order: seq<Node>)
    requires Progress(edges, indegree, [], order)
    requires DegreesCount(edges, indegree, Elements(order))
    requires Known(nodes, edges, indegree.Keys)
    ensures |order| != |indegree| <==> HasCycle(edges) || HasStray(nodes, edges)
  {
    var known, visited := indegree.Keys, Elements(order);
    Lengths(order, visited);
    NothingQueued(edges, indegree, order);
    assert |indegree| == |known| == |visited| + |known - visited|;
    if HasStray(nodes, edges) {
      StrayBlocks(nodes, edges, known, visited);
    } else if known - visited == {} {
      AllVisited(nodes, edges, known, order);
    } else {
      SomeLeftOver(nodes, edges, known, visited);
    }
  }

  lemma {:induction false} Lengths(order: seq<Node>, visited: set<Node>)
    requires forall i, j | 0 <= i < j < |order| :: order[i] != order[j]
    requires visited == Elements(order)
    ensures |visited| == |order|
  {
    if order != [] {
      var n := |order| - 1;
      var before := Elements(order[..n]);
      Lengths(order[..n], before);
      assert visited == before + {order[n]};
    }
  }

  // ---- reachability -----------------------------------------------------------------

  /** The next ring of the expansion. */
  function Expand(edges: seq<Edge>, reachable: set<Node>): set<Node> {
    reachable + set e | e in edges && e.upstream in reachable :: e.downstream
  }

  lemma ExpandReaches(edges: seq<Edge>, sources: set<Node>, reachable: set<Node>)
    requires forall v | v in reachable :: Reaches(edges, sources, v)
    ensures forall v | v in Expand(edges, reachable) :: Reaches(edges, sources, v)
  {
    forall v | v in Expand(edges, reachable) && v !in reachable ensures Reaches(edges, sources, v) {
      var e :| e in edges && e.upstream in reachable && e.downstream == v;
      var p: seq<Node> :| IsWalk(edges, p) && p[0] in sources && p[|p| - 1] == e.upstream;
      assert IsWalk(edges, p + [v]);
    }
  }

  lemma FixpointIsAll(edges: seq<Edge>, sources: set<Node>, reachable: set<Node>)
    requires sources <= reachable && Expand(edges, reachable) == reachable
    ensures forall v | Reaches(edges, sources, v) :: v in reachable
  {
    forall v | Reaches(edges, sources, v) ensures v in reachable {
      var p: seq<Node> :| IsWalk(edges, p) && p[0] in sources && p[|p| - 1] == v;
      forall e | e in edges && e.upstream in reachable ensures e.downstream in reachable {
        assert e.downstream in Expand(edges, reachable);
      }
      ClosedKeepsWalks(edges, reachable, p, |p| - 1);
    }
  }

  /** Expand until nothing is added: exactly what some walk from a source leads to. */
  method ReachableFrom(sources: set<Node>, edges: seq<Edge>) returns (reachable: set<Node>)
    ensures forall v :: v in reachable <==> Reaches(edges, sources, v)
  {
    ghost var bound := sources + set e | e in edges :: e.downstream;
    reachable := sources;
    forall v | v in sources ensures Reaches(edges, sources, v) {
      assert IsWalk(edges, [v]);
    }
    while true
      invariant sources <= reachable <= bound
      invariant forall v | v in reachable :: Reaches(edges, sources, v)
      decreases bound - reachable
    {
      var expanded := reachable + set e | e in edges && e.upstream in reachable :: e.downstream;
      ExpandReaches(edges, sources, reachable);
      if expanded == reachable {
        break;
      }
      reachable := expanded;
    }
    FixpointIsAll(edges, sources, reachable);
  }

  lemma {:induction false} ClosedKeepsWalks(edges: seq<Edge>, closed: set<Node>, p: seq<Node>, k: nat)
    requires IsWalk(edges, p) && p[0] in closed && k < |p|
    requires forall e | e in edges && e.upstream in closed :: e.downstream in closed
    ensures p[k] in closed
  {
    if k > 0 {
      ClosedKeepsWalks(edges, closed, p, k - 1);
      assert Edge(p[k - 1], p[k]) in edges;
    }
  }
}
