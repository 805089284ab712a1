/** Back-edge detection over a workflow's edges, and the correlation epochs it
    defines (workflow/topology.go). */
module Topology {
  type Edges = map<string, seq<string>>

  datatype Edge = Edge(source: string, target: string)

  datatype VisitState = Visiting | Visited

  datatype CorrelationKey = CorrelationKey(id: string, epoch: int)

  function Targets(edges: Edges, node: string): seq<string> {
    if node in edges then edges[node] else []
  }

  // ----- walks -----

  /** A non-empty sequence of nodes, each step along an edge. */
  ghost predicate Walk(edges: Edges, nodes: seq<string>) {
    && nodes != []
    && (forall i :: 0 <= i < |nodes| - 1 ==> nodes[i + 1] in Targets(edges, nodes[i]))
  }

  ghost predicate Connects(edges: Edges, nodes: seq<string>, first: string, last: string) {
    Walk(edges, nodes) && nodes[0] == first && nodes[|nodes| - 1] == last
  }

  ghost predicate Reaches(edges: Edges, first: string, last: string) {
    exists nodes :: Connects(edges, nodes, first, last)
  }

  lemma ReachesItself(edges: Edges, node: string)
    ensures Reaches(edges, node, node)
  {
    assert Connects(edges, [node], node, node);
  }

  lemma ReachesFurther(edges: Edges, first: string, last: string, next: string)
    requires Reaches(edges, first, last) && next in Targets(edges, last)
    ensures Reaches(edges, first, next)
  {
    var nodes :| Connects(edges, nodes, first, last);
    assert Connects(edges, nodes + [next], first, next);
  }

  /** The edge lies on a cycle: its source can be reached from its target. */
  ghost predicate ClosesCycle(edges: Edges, edge: Edge) {
    edge.target in Targets(edges, edge.source) && Reaches(edges, edge.target, edge.source)
  }

  // ----- what a scan establishes -----

  ghost predicate Distinct(nodes: seq<string>) {
    forall i, j :: 0 <= i < j < |nodes| ==> nodes[i] != nodes[j]
  }

  /** Where a node was finished. */
  ghost function Rank(finished: seq<string>, node: string): (rank: int)
    ensures if node in finished then 0 <= rank < |finished| && finished[rank] == node else rank == -1
  {
    if finished == [] then -1
    else if finished[|finished| - 1] == node then |finished| - 1
    else Rank(finished[..|finished| - 1], node)
  }

  lemma RankAt(finished: seq<string>, i: nat)
    requires Distinct(finished) && i < |finished|
    ensures Rank(finished, finished[i]) == i
  {
  }

  /** Every edge out of a finished node is a back edge or leads to a node finished earlier. */
  ghost predicate EdgesDescend(edges: Edges, finished: seq<string>, back: set<Edge>) {
    forall i, target :: 0 <= i < |finished| && target in Targets(edges, finished[i]) ==>
      Edge(finished[i], target) in back || target in finished[..i]
  }

  /** The colours agree with the path being visited and the nodes left. */
  ghost predicate Colored(state: map<string, VisitState>, path: seq<string>, finished: seq<string>) {
    && Distinct(path) && Distinct(finished)
    && (forall node :: node in state && state[node] == Visiting <==> node in path)
    && (forall node :: node in state && state[node] == Visited <==> node in finished)
  }

  ghost predicate Trail(edges: Edges, path: seq<string>) {
    forall i :: 0 <= i < |path| - 1 ==> path[i + 1] in Targets(edges, path[i])
  }

  ghost predicate AllReached(entry: string, edges: Edges, state: map<string, VisitState>) {
    forall node :: node in state ==> Reaches(edges, entry, node)
  }

  ghost predicate Found(edges: Edges, state: map<string, VisitState>, back: set<Edge>) {
    forall edge :: edge in back ==> edge.source in state && edge.target in state && ClosesCycle(edges, edge)
  }

  lemma Entered(edges: Edges, state: map<string, VisitState>, path: seq<string>, finished: seq<string>, back: set<Edge>,
                node: string)
    requires Colored(state, path, finished) && Trail(edges, path) && Found(edges, state, back) && node !in state
    requires path != [] ==> node in Targets(edges, path[|path| - 1])
    ensures Colored(state[node := Visiting], path + [node], finished)
    ensures Trail(edges, path + [node]) && Found(edges, state[node := Visiting], back)
    ensures (path + [node])[|path|] == node
  {
  }

  /** Every edge from the node to one of the targets is a back edge or leads to a node that was left. */
  ghost predicate Led(node: string, targets: seq<string>, finished: seq<string>, back: set<Edge>) {
    forall target :: target in targets ==> Edge(node, target) in back || target in finished
  }

  lemma LedFurther(node: string, targets: seq<string>, index: nat, before: seq<string>, finished: seq<string>,
                   was: set<Edge>, back: set<Edge>)
    requires index < |targets| && Led(node, targets[..index], before, was) && before <= finished && was <= back
    requires Edge(node, targets[index]) in back || targets[index] in finished
    ensures Led(node, targets[..index + 1], finished, back)
  {
    assert targets[..index + 1] == targets[..index] + [targets[index]];
  }

  lemma Left(edges: Edges, state: map<string, VisitState>, path: seq<string>, finished: seq<string>, back: set<Edge>,
             node: string)
    requires Colored(state, path + [node], finished) && Trail(edges, path + [node]) && Found(edges, state, back)
    requires EdgesDescend(edges, finished, back) && Led(node, Sorted(Targets(edges, node)), finished, back)
    ensures Colored(state[node := Visited], path, finished + [node])
    ensures Trail(edges, path) && Found(edges, state[node := Visited], back)
    ensures EdgesDescend(edges, finished + [node], back)
  {
    LeftDescends(edges, finished, back, node);
    LeftIsColored(state, path, finished, node);
    hide EdgesDescend, Led, Sorted, Colored;
    var trail := path + [node];
    assert forall i :: 0 <= i < |path| ==> trail[i] == path[i];
  }

  lemma LeftIsColored(state: map<string, VisitState>, path: seq<string>, finished: seq<string>, node: string)
    requires Colored(state, path + [node], finished)
    ensures Colored(state[node := Visited], path, finished + [node])
  {
    var trail := path + [node];
    assert trail[|path|] == node && forall i :: 0 <= i < |path| ==> trail[i] == path[i];
    assert node !in finished;
  }

  lemma StillReached(entry: string, edges: Edges, state: map<string, VisitState>, node: string, color: VisitState)
    requires AllReached(entry, edges, state) && Reaches(edges, entry, node)
    ensures AllReached(entry, edges, state[node := color])
  {
  }

  lemma LeftDescends(edges: Edges, finished: seq<string>, back: set<Edge>, node: string)
    requires EdgesDescend(edges, finished, back) && Led(node, Sorted(Targets(edges, node)), finished, back)
    ensures EdgesDescend(edges, finished + [node], back)
  {
    var later := finished + [node];
    forall i, target | 0 <= i < |later| && target in Targets(edges, later[i])
      ensures Edge(later[i], target) in back || target in later[..i]
    {
      assert later[..i] == finished[..i];
      assert i == |finished| ==> target in Sorted(Targets(edges, node)) && later[..i] == finished;
    }
  }

  /** An edge from the end of the trail back onto it closes a cycle. */
  lemma PathCloses(edges: Edges, path: seq<string>, target: string)
    requires Trail(edges, path) && path != [] && target in path && target in Targets(edges, path[|path| - 1])
    ensures ClosesCycle(edges, Edge(path[|path| - 1], target))
  {
    var i :| 0 <= i < |path| && path[i] == target;
    assert Connects(edges, path[i..], target, path[|path| - 1]);
  }

  // ----- sorting targets -----

  predicate TextLess(left: string, right: string) {
    if right == [] then false
    else if left == [] then true
    else left[0] < right[0] || (left[0] == right[0] && TextLess(left[1..], right[1..]))
  }

  predicate Ascending(texts: seq<string>) {
    forall i :: 0 <= i < |texts| - 1 ==> !TextLess(texts[i + 1], texts[i])
  }

  lemma {:induction false} TextLessIsAsymmetric(left: string, right: string)
    ensures TextLess(left, right) ==> !TextLess(right, left)
  {
    if left != [] && right != [] {
      TextLessIsAsymmetric(left[1..], right[1..]);
    }
  }

  function Inserted(sorted: seq<string>, text: string): (r: seq<string>)
    ensures multiset(r) == multiset(sorted) + multiset{text}
  {
    if sorted == [] || !TextLess(sorted[0], text) then [text] + sorted
    else
      assert sorted == [sorted[0]] + sorted[1..];
      [sorted[0]] + Inserted(sorted[1..], text)
  }

  /** A sorted copy. */
  function Sorted(texts: seq<string>): (sorted: seq<string>)
    ensures multiset(sorted) == multiset(texts)
    ensures forall text :: text in sorted <==> text in texts
  {
    if texts == [] then []
    else
      assert texts == [texts[0]] + texts[1..];
      var sorted := Inserted(Sorted(texts[1..]), texts[0]);
      assert forall text :: text in sorted <==> text in multiset(sorted);
      assert forall text :: text in texts <==> text in multiset(texts);
      sorted
  }

  lemma {:induction false} InsertedAscends(sorted: seq<string>, text: string)
    requires Ascending(sorted)
    ensures Ascending(Inserted(sorted, text))
  {
    if sorted != [] && TextLess(sorted[0], text) {
      InsertedAscends(sorted[1..], text);
      TextLessIsAsymmetric(sorted[0], text);
    }
  }

  lemma {:induction false} SortedAscends(texts: seq<string>)
    ensures Ascending(Sorted(texts))
  {
    if texts != [] {
      SortedAscends(texts[1..]);
      InsertedAscends(Sorted(texts[1..]), texts[0]);
    }
  }

  // ----- the scan -----

  class TopologyScan {
    const entry: string
    const edges: Edges
    var state: map<string, VisitState>
    var back: set<Edge>
    ghost var path: seq<string>       // nodes being visited, outermost first
    ghost var finished: seq<string>   // nodes visited, in the order they were left

    constructor (entry: string, edges: Edges)
      ensures this.entry == entry && this.edges == edges
      ensures state == map[] && back == {} && path == [] && finished == []
    {
      this.entry, this.edges := entry, edges;
      state, back, path, finished := map[], {}, [], [];
    }

    ghost predicate Valid()
      reads this
    {
      && Colored(state, path, finished)
      && Trail(edges, path)
      && EdgesDescend(edges, finished, back)
      && AllReached(entry, edges, state)
      && Found(edges, state, back)
    }

    /** The nodes not seen yet. */
    ghost function Unseen(): set<string>
      reads this
    {
      AllNodes(entry, edges) - state.Keys
    }

    /** What a visit leaves alone and only adds to. */
    twostate predicate Grows()
      reads this
    {
      && path == old(path) && old(finished) <= finished && old(back) <= back
      && old(state).Keys <= state.Keys
    }

    method Visit(node: string)
      requires Valid() && node !in state && node in AllNodes(entry, edges) && Reaches(edges, entry, node)
      requires path != [] ==> node in Targets(edges, path[|path| - 1])
      modifies this
      ensures Valid() && Grows() && node in finished && finished[|finished| - 1] == node
      decreases Unseen(), 0
    {
      hide Led, Sorted, Reaches, AllReached, Targets, Colored, Trail, EdgesDescend, Found, AllNodes;
      ghost var outer := path;
      Entered(edges, state, path, finished, back, node);
      StillReached(entry, edges, state, node, Visiting);
      state := state[node := Visiting];
      path := path + [node];
      assert node in old(Unseen()) && Unseen() <= old(Unseen()) && node !in Unseen();
      VisitTargets(node);
      Left(edges, state, outer, finished, back, node);
      StillReached(entry, edges, state, node, Visited);
      state := state[node := Visited];
      path := outer;
      finished := finished + [node];
    }

    method VisitTargets(node: string)
      requires Valid() && path != [] && path[|path| - 1] == node
      modifies this
      ensures Valid() && Grows() && Led(node, Sorted(Targets(edges, node)), finished, back)
      decreases Unseen(), 2
    {
      var targets := Sorted(Targets(edges, node));
      assert Led(node, [], finished, back) && forall target :: target in targets ==> target in Targets(edges, node);
      hide Led, Sorted, AllReached, Targets, Colored, Trail, EdgesDescend, Found, AllNodes;
      for index := 0 to |targets|
        invariant Valid() && Grows() && Led(node, targets[..index], finished, back)
      {
        ghost var before, was := finished, back;
        VisitEdge(node, targets[index]);
        LedFurther(node, targets, index, before, finished, was, back);
      }
      assert targets[..|targets|] == targets;
    }

    method VisitEdge(source: string, target: string)
      requires Valid() && path != [] && path[|path| - 1] == source && target in Targets(edges, source)
      modifies this
      ensures Valid() && Grows() && (Edge(source, target) in back || target in finished)
      decreases Unseen(), 1
    {
      ReachesFurther(edges, entry, source, target);
      if target in state && state[target] == Visiting {
        PathCloses(edges, path, target);
        back := back + {Edge(source, target)};
        return;
      }
      if target !in state {
        Visit(target);
      }
    }
  }

  ghost function AllNodes(entry: string, edges: Edges): set<string> {
    {entry} + edges.Keys + (set node, target | node in edges && target in edges[node] :: target)
  }

  /** What a finished scan has established: it left exactly the nodes reachable from
      the entry, every edge between them that is not a back edge leads to a node left
      earlier, and every back edge closes a cycle. */
  ghost predicate Scanned(entry: string, edges: Edges, back: set<Edge>, finished: seq<string>) {
    && Distinct(finished) && EdgesDescend(edges, finished, back)
    && (forall node :: node in finished <==> Reaches(edges, entry, node))
    && (forall edge :: edge in back ==> edge.source in finished && ClosesCycle(edges, edge))
  }

  /** All edges into the entry that can be reached are back edges. */
  ghost predicate EntryIsClosed(entry: string, edges: Edges, back: set<Edge>) {
    forall source :: Reaches(edges, entry, source) && entry in Targets(edges, source) ==> Edge(source, entry) in back
  }

  lemma EntryLeftLast(entry: string, edges: Edges, back: set<Edge>, finished: seq<string>)
    requires Scanned(entry, edges, back, finished) && finished != [] && finished[|finished| - 1] == entry
    ensures EntryIsClosed(entry, edges, back)
  {
    forall source | Reaches(edges, entry, source) && entry in Targets(edges, source)
      ensures Edge(source, entry) in back
    {
      var i :| 0 <= i < |finished| && finished[i] == source;
    }
  }

  /** The back edges of a topology: every cycle that can be reached has one, and each
      closes a cycle. */
  method FindTopologyBackEdges(entry: string, edges: Edges) returns (back: set<Edge>, ghost finished: seq<string>)
    ensures Scanned(entry, edges, back, finished)
    ensures forall nodes :: ReachableCycle(entry, edges, nodes) ==> !NoBackEdge(back, nodes)
    ensures forall edge :: edge in back ==> ClosesCycle(edges, edge) && Reaches(edges, entry, edge.source)
    ensures back != {} <==> exists nodes :: ReachableCycle(entry, edges, nodes)
    ensures EntryIsClosed(entry, edges, back)
  {
    var scan := new TopologyScan(entry, edges);
    ReachesItself(edges, entry);
    scan.Visit(entry);
    back, finished := scan.back, scan.finished;
    ghost var state := scan.state;
    assert Found(edges, state, back) && Colored(state, [], finished) && EdgesDescend(edges, finished, back);
    forall node | Reaches(edges, entry, node)
      ensures node in finished
    {
      var nodes :| Connects(edges, nodes, entry, node);
      WalkStaysFinished(edges, back, finished, nodes);
    }
    assert Scanned(entry, edges, back, finished);
    EntryLeftLast(entry, edges, back, finished);
    hide Scanned, NoBackEdge, ReachableCycle, EntryIsClosed;
    forall nodes | ReachableCycle(entry, edges, nodes)
      ensures !NoBackEdge(back, nodes)
    {
      EveryCycleHasABackEdge(entry, edges, back, finished, nodes);
    }
    BackEdgesIffCycle(entry, edges, back, finished);
  }

  /** Finished nodes are closed under edges, so whole walks stay among them. */
  lemma {:induction false} WalkStaysFinished(edges: Edges, back: set<Edge>, finished: seq<string>, nodes: seq<string>)
    requires EdgesDescend(edges, finished, back) && forall edge :: edge in back ==> edge.target in finished
    requires Walk(edges, nodes) && nodes[0] in finished
    ensures forall node :: node in nodes ==> node in finished
  {
    if |nodes| > 1 {
      var source, target := nodes[0], nodes[1];
      assert target in Targets(edges, source);
      assert finished[Rank(finished, source)] == source;
      assert Edge(source, target) in back || target in finished[..Rank(finished, source)];
      WalkStaysFinished(edges, back, finished, nodes[1..]);
    }
  }

  // ----- what back edges are good for -----

  ghost predicate NoBackEdge(back: set<Edge>, nodes: seq<string>) {
    forall i :: 0 <= i < |nodes| - 1 ==> Edge(nodes[i], nodes[i + 1]) !in back
  }

  /** Along reachable edges that are not back edges the rank descends. */
  lemma {:induction false} RankDescends(entry: string, edges: Edges, back: set<Edge>, finished: seq<string>,
                                        nodes: seq<string>, i: nat, j: nat)
    requires Scanned(entry, edges, back, finished) && Walk(edges, nodes) && NoBackEdge(back, nodes)
    requires Reaches(edges, entry, nodes[0])
    requires i < j < |nodes|
    ensures nodes[i] in finished && nodes[j] in finished && Rank(finished, nodes[j]) < Rank(finished, nodes[i])
    decreases j
  {
    if j == 1 {
      assert nodes[0] in finished;
    } else if i < j - 1 {
      RankDescends(entry, edges, back, finished, nodes, i, j - 1);
    } else {
      RankDescends(entry, edges, back, finished, nodes, i - 1, i);
    }
    var source, target := nodes[j - 1], nodes[j];
    var rank := Rank(finished, source);
    assert target in Targets(edges, source) && Edge(source, target) !in back;
    assert target in finished[..rank];
    var k :| 0 <= k < rank && finished[k] == target;
    RankAt(finished, k);
  }

  ghost predicate ReachableCycle(entry: string, edges: Edges, nodes: seq<string>) {
    Walk(edges, nodes) && |nodes| > 1 && nodes[0] == nodes[|nodes| - 1] && Reaches(edges, entry, nodes[0])
  }

  /** Every cycle reachable from the entry contains a back edge: without them the
      reachable edges are acyclic. */
  lemma EveryCycleHasABackEdge(entry: string, edges: Edges, back: set<Edge>, finished: seq<string>, nodes: seq<string>)
    requires Scanned(entry, edges, back, finished) && ReachableCycle(entry, edges, nodes)
    ensures !NoBackEdge(back, nodes)
  {
    if NoBackEdge(back, nodes) {
      RankDescends(entry, edges, back, finished, nodes, 0, |nodes| - 1);
    }
  }

  /** A topology has back edges exactly when a cycle can be reached from its entry. */
  lemma BackEdgesIffCycle(entry: string, edges: Edges, back: set<Edge>, finished: seq<string>)
    requires Scanned(entry, edges, back, finished)
    ensures back != {} <==> exists nodes :: ReachableCycle(entry, edges, nodes)
  {
    if back != {} {
      var edge :| edge in back;
      var nodes :| Connects(edges, nodes, edge.target, edge.source);
      ReachesFurther(edges, entry, edge.source, edge.target);
      assert ReachableCycle(entry, edges, nodes + [edge.target]);
    }
    if nodes :| ReachableCycle(entry, edges, nodes) {
      EveryCycleHasABackEdge(entry, edges, back, finished, nodes);
    }
  }

  // ----- correlation epochs -----

  function NextCorrelation(back: set<Edge>, correlation: CorrelationKey, source: string,
                           target: string): CorrelationKey {
    if Edge(source, target) in back then correlation.(epoch := correlation.epoch + 1) else correlation
  }

  /** A chain of activations, each scheduled by the one before. */
  ghost predicate Chain(edges: Edges, back: set<Edge>, nodes: seq<string>, correlations: seq<CorrelationKey>) {
    && Walk(edges, nodes) && |correlations| == |nodes|
    && (forall i :: 0 <= i < |nodes| - 1 ==>
          correlations[i + 1] == NextCorrelation(back, correlations[i], nodes[i], nodes[i + 1]))
  }

  /** Along a chain the correlation keeps its identity and its epoch never goes back;
      it stays the same exactly where no back edge is taken. */
  lemma {:induction false} EpochsAdvance(edges: Edges, back: set<Edge>, nodes: seq<string>,
                                         correlations: seq<CorrelationKey>, i: nat, j: nat)
    requires Chain(edges, back, nodes, correlations) && i <= j < |nodes|
    ensures correlations[i].id == correlations[j].id && correlations[i].epoch <= correlations[j].epoch
    ensures correlations[i] == correlations[j] <==> NoBackEdge(back, nodes[i..j + 1])
    decreases j - i
  {
    if i < j {
      EpochsAdvance(edges, back, nodes, correlations, i, j - 1);
      var whole, shorter := nodes[i..j + 1], nodes[i..j];
      assert whole[|shorter| - 1] == nodes[j - 1] && whole[|shorter|] == nodes[j];
      assert forall k :: 0 <= k < |shorter| ==> shorter[k] == whole[k];
      if NoBackEdge(back, whole) {
        assert NoBackEdge(back, shorter);
        assert Edge(whole[|shorter| - 1], whole[|shorter|]) !in back;
      }
    }
  }

  /** Within one correlation epoch a chain never comes back to a node. */
  lemma NoNodeTwiceInAnEpoch(entry: string, edges: Edges, back: set<Edge>, finished: seq<string>, nodes: seq<string>,
                             correlations: seq<CorrelationKey>, i: nat, j: nat)
    requires Scanned(entry, edges, back, finished) && Chain(edges, back, nodes, correlations)
    requires Reaches(edges, entry, nodes[0])
    requires i < j < |nodes| && nodes[i] == nodes[j]
    ensures correlations[i] != correlations[j] && correlations[i].epoch < correlations[j].epoch
  {
    EpochsAdvance(edges, back, nodes, correlations, i, j);
    if correlations[i] == correlations[j] {
      var between := nodes[i..j + 1];
      assert Connects(edges, nodes[..i + 1], nodes[0], nodes[i]);
      var before :| Connects(edges, before, entry, nodes[0]);
      assert Connects(edges, before + nodes[1..i + 1], entry, nodes[i]);
      RankDescends(entry, edges, back, finished, between, 0, |between| - 1);
    }
  }
}
