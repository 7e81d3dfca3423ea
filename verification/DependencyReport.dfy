/**
 `dependency_report`: the graph behind the report and the three-way classification of
 its internal edges. Slice names come from the repository layout and are an input; so
 is the list of edges the direction gate forbids.
 */
module DependencyReport {
  import opened Orders
  import opened Reachability
  import opened Tarjan

  type Edge = (string, string)

  // ----- the graph

  /** `adjacency`: successor sets, self-loops dropped. */
  method Adjacency(edges: seq<Edge>) returns (g: Graph)
    ensures forall v :: Successors(g, v) == set e | e in edges && e.0 == v && e.1 != v :: e.1
    ensures forall v | v in g :: g[v] != {}
  {
    g := map[];
    for n := 0 to |edges|
      invariant forall v :: Successors(g, v) == set e | e in edges[..n] && e.0 == v && e.1 != v :: e.1
      invariant forall v | v in g :: g[v] != {}
    {
      var (source, destination) := edges[n];
      assert edges[..n + 1] == edges[..n] + [edges[n]];
      ghost var before := g;
      if source != destination {
        g := g[source := Successors(g, source) + {destination}];
      }
      forall v ensures Successors(g, v) == set e | e in edges[..n + 1] && e.0 == v && e.1 != v :: e.1 {
        assert Successors(before, v) == set e | e in edges[..n] && e.0 == v && e.1 != v :: e.1;
      }
    }
    assert edges[..|edges|] == edges;
  }

  /** `v` lies on a directed cycle through some other node. */
  ghost predicate OnCycle(g: Graph, v: string) {
    exists u :: u != v && Mutual(g, v, u)
  }

  function InCycle(cycles: seq<seq<string>>): set<string> {
    set c, v | c in cycles && v in c :: v
  }

  lemma NontrivialIsOnCycle(g: Graph, v: string)
    requires v in Nodes(g)
    ensures Nontrivial(g, v) <==> OnCycle(g, v)
  {
    InOwnClass(g, v);
    if Nontrivial(g, v) {
      var others := ClassOf(g, v) - {v};
      assert |others| == |ClassOf(g, v)| - 1;
      var u :| u in others;
      assert Mutual(g, v, u);
    }
    if OnCycle(g, v) {
      var u :| u != v && Mutual(g, v, u);
      ReachesNode(g, v, u);
      assert {u, v} <= ClassOf(g, v);
      SubsetSize({u, v}, ClassOf(g, v));
    }
  }

  /** The union of the reported cycles is the set of nodes on a cycle. */
  lemma InCycleMeans(g: Graph, cycles: seq<seq<string>>, v: string)
    requires Lists(g, Nodes(g), cycles)
    ensures v in InCycle(cycles) <==> v in Nodes(g) && OnCycle(g, v)
  {
    if v in InCycle(cycles) {
      var c :| c in cycles && v in c;
      assert StemsFrom(g, Nodes(g), c);
      var u :| u in Nodes(g) && Nontrivial(g, u) && Renders(g, c, u);
      assert v in Elements(c);
      SameClass(g, u, v);
      NontrivialIsOnCycle(g, v);
    }
    if v in Nodes(g) && OnCycle(g, v) {
      NontrivialIsOnCycle(g, v);
      assert Reported(g, cycles, v);
      var c :| c in cycles && Renders(g, c, v);
      InOwnClass(g, v);
      assert v in Elements(c);
    }
  }

  // ----- direction between slices

  /** The ranks documented for the linear flow; every other slice is unranked. */
  const LAYER_RANK: map<string, nat> := map[
    "evidrun.shared" := 0,
    "evidrun.contracts" := 1,
    "evidrun.evidence" := 2,
    "evidrun.runs" := 3,
    "evidrun.entrypoints" := 4
  ]

  /** The documented flow: each slice may import those before it. */
  const FLOW := ["evidrun.shared", "evidrun.contracts", "evidrun.evidence", "evidrun.runs", "evidrun.entrypoints"]

  /** An import of a slice that comes later in the flow. */
  ghost predicate AgainstFlow(source: string, destination: string) {
    exists i, j :: 0 <= i < j < |FLOW| && FLOW[i] == source && FLOW[j] == destination
  }

  predicate CrossesDirection(source: string, destination: string) {
    source in LAYER_RANK && destination in LAYER_RANK && LAYER_RANK[destination] > LAYER_RANK[source]
  }

  lemma RankIsPlace(slice: string, i: nat)
    ensures i < |FLOW| && FLOW[i] == slice <==> slice in LAYER_RANK && LAYER_RANK[slice] == i
  {
    assert |FLOW| == 5 && FLOW[0] == "evidrun.shared" && FLOW[1] == "evidrun.contracts";
    assert FLOW[2] == "evidrun.evidence" && FLOW[3] == "evidrun.runs" && FLOW[4] == "evidrun.entrypoints";
  }

  lemma CrossesExactly(source: string, destination: string)
    ensures CrossesDirection(source, destination) <==> AgainstFlow(source, destination)
  {
    if CrossesDirection(source, destination) {
      RankIsPlace(source, LAYER_RANK[source]);
      RankIsPlace(destination, LAYER_RANK[destination]);
    }
    if AgainstFlow(source, destination) {
      var i, j :| 0 <= i < j < |FLOW| && FLOW[i] == source && FLOW[j] == destination;
      RankIsPlace(source, i);
      RankIsPlace(destination, j);
    }
  }

  datatype Crossing = Crossing(source: string, destination: string, against: bool)

  /** `_slice_crossings`: one row per ordered pair of distinct slices joined by an edge. */
  function SliceCrossings(edges: seq<Edge>, sliceOf: string -> string): set<Crossing> {
    set e | e in edges && sliceOf(e.0) != sliceOf(e.1) ::
      Crossing(sliceOf(e.0), sliceOf(e.1), CrossesDirection(sliceOf(e.0), sliceOf(e.1)))
  }

  // ----- the classification

  datatype Report = Report(
    internalEdges: seq<Edge>,
    forbiddenEdges: seq<Edge>,
    moduleCycles: seq<seq<string>>,
    sliceCycles: seq<seq<string>>,
    crossings: set<Crossing>,
    sliceOf: string -> string
  ) {
    function ForbiddenSet(): set<Edge> { set e | e in forbiddenEdges && e in internalEdges }

    function ForbiddenInternal(): seq<Edge> { SortedPairs(ForbiddenSet()) }

    predicate Suspicious(e: Edge) {
      && e !in forbiddenEdges
      && (|| (e.0 in InCycle(moduleCycles) && e.1 in InCycle(moduleCycles))
          || Crossing(sliceOf(e.0), sliceOf(e.1), true) in crossings)
    }

    function SuspiciousSet(): set<Edge> { set e | e in internalEdges && Suspicious(e) }

    function SuspiciousEdges(): seq<Edge> { SortedPairs(SuspiciousSet()) }

    function AllowedSet(): set<Edge> {
      set e | e in internalEdges && e !in forbiddenEdges && e !in SuspiciousEdges()
    }

    function Allowed(): seq<Edge> { Select(internalEdges, AllowedSet()) }
  }

  /** The members of `keep`, in the order of `s`. */
  function Select<T(==)>(s: seq<T>, keep: set<T>): (r: seq<T>)
    ensures Elements(r) == Elements(s) * keep
    ensures |r| <= |s|
  {
    if s == [] then []
    else
      var rest := Select(s[1..], keep);
      assert Elements(s) == {s[0]} + Elements(s[1..]);
      if s[0] in keep then assert Elements([s[0]] + rest) == {s[0]} + Elements(rest); [s[0]] + rest else rest
  }

  /** The report of one checkout; `internalEdges` comes sorted and without repetition. */
  method BuildReport(internalEdges: seq<Edge>, forbidden: seq<Edge>, sliceOf: string -> string)
    returns (r: Report, ghost g: Graph, ghost h: Graph)
    requires Ascending(PairBefore, internalEdges)
    ensures r.internalEdges == internalEdges && r.sliceOf == sliceOf
    ensures Elements(r.forbiddenEdges) == Elements(forbidden)
    ensures Reports(r, g)
    ensures SliceGraphs(h, internalEdges, sliceOf) && Lists(h, Nodes(h), r.sliceCycles)
  {
    var adjacent := Adjacency(internalEdges);
    var cycles := Cycles(adjacent);
    var crossings := SliceCrossings(internalEdges, sliceOf);
    var slices := Adjacency(SortedPairs(SlicePairs(crossings)));
    var sliceCycles := Cycles(slices);
    g, h := adjacent, slices;
    SliceEdges(h, internalEdges, sliceOf);
    r := Report(internalEdges, SortedPairs(Elements(forbidden)), cycles, sliceCycles, crossings, sliceOf);
  }

  function SlicePairs(crossings: set<Crossing>): set<Edge> {
    set c | c in crossings :: (c.source, c.destination)
  }

  /** `h` joins two slices exactly when they differ and a module of the first imports one of the second. */
  ghost predicate SliceGraphs(h: Graph, edges: seq<Edge>, sliceOf: string -> string) {
    forall a, b :: b in Successors(h, a) <==> a != b && Joined(edges, sliceOf, a, b)
  }

  ghost predicate Joined(edges: seq<Edge>, sliceOf: string -> string, a: string, b: string) {
    exists e :: e in edges && sliceOf(e.0) == a && sliceOf(e.1) == b
  }

  lemma SliceEdges(h: Graph, edges: seq<Edge>, sliceOf: string -> string)
    requires Graphs(h, SortedPairs(SlicePairs(SliceCrossings(edges, sliceOf))))
    ensures SliceGraphs(h, edges, sliceOf)
  {
    var pairs := SlicePairs(SliceCrossings(edges, sliceOf));
    forall a, b ensures b in Successors(h, a) <==> a != b && Joined(edges, sliceOf, a, b) {
      assert b in Successors(h, a) <==> a != b && (a, b) in pairs by {
        assert (a, b) in Elements(SortedPairs(pairs)) <==> (a, b) in pairs;
      }
      PairJoined(edges, sliceOf, a, b);
    }
  }

  lemma PairJoined(edges: seq<Edge>, sliceOf: string -> string, a: string, b: string)
    ensures (a, b) in SlicePairs(SliceCrossings(edges, sliceOf)) <==> a != b && Joined(edges, sliceOf, a, b)
  {
    var crossings := SliceCrossings(edges, sliceOf);
    if a != b && Joined(edges, sliceOf, a, b) {
      var e :| e in edges && sliceOf(e.0) == a && sliceOf(e.1) == b;
      var c := Crossing(a, b, CrossesDirection(a, b));
      assert c in crossings;
      assert (c.source, c.destination) in SlicePairs(crossings);
    }
  }

  /** A slice is in a reported slice cycle exactly if a chain of imports leads from it into another slice and back. */
  lemma SliceCyclesMean(r: Report, h: Graph, slice: string)
    requires SliceGraphs(h, r.internalEdges, r.sliceOf) && Lists(h, Nodes(h), r.sliceCycles)
    ensures slice in InCycle(r.sliceCycles) <==> OnCycle(h, slice)
  {
    InCycleMeans(h, r.sliceCycles, slice);
    if OnCycle(h, slice) {
      var u :| u != slice && Mutual(h, slice, u);
      ReachesNode(h, u, slice);
    }
  }

  /** `g` has exactly the edges between distinct modules. */
  ghost predicate Graphs(g: Graph, edges: seq<Edge>) {
    forall v :: Successors(g, v) == set e | e in edges && e.0 == v && e.1 != v :: e.1
  }

  ghost predicate Reports(r: Report, g: Graph) {
    && Ascending(PairBefore, r.internalEdges)
    && Graphs(g, r.internalEdges)
    && Lists(g, Nodes(g), r.moduleCycles)
    && r.crossings == SliceCrossings(r.internalEdges, r.sliceOf)
  }

  lemma EdgeNodes(g: Graph, edges: seq<Edge>, e: Edge)
    requires Graphs(g, edges) && e in edges && e.0 != e.1
    ensures e.0 in Nodes(g) && e.1 in Nodes(g) && e.1 in Successors(g, e.0)
  {
    assert e.1 in Successors(g, e.0);
    assert e.0 in g;
  }

  /** The direction verdict read from the crossings is the documented order itself. */
  lemma DirectionVerdict(r: Report, g: Graph, e: Edge)
    requires Reports(r, g) && e in r.internalEdges
    ensures Crossing(r.sliceOf(e.0), r.sliceOf(e.1), true) in r.crossings
            <==> CrossesDirection(r.sliceOf(e.0), r.sliceOf(e.1))
  {
  }

  /** What `suspicious` means, without the algorithm: reachability and the documented flow. */
  lemma SuspiciousMeans(r: Report, g: Graph, e: Edge)
    requires Reports(r, g) && e in r.internalEdges
    ensures e in r.SuspiciousEdges() <==>
      && e !in r.forbiddenEdges
      && (|| (e.0 in Nodes(g) && OnCycle(g, e.0) && e.1 in Nodes(g) && OnCycle(g, e.1))
          || AgainstFlow(r.sliceOf(e.0), r.sliceOf(e.1)))
  {
    CrossesExactly(r.sliceOf(e.0), r.sliceOf(e.1));
    InCycleMeans(g, r.moduleCycles, e.0);
    InCycleMeans(g, r.moduleCycles, e.1);
    DirectionVerdict(r, g, e);
    assert e in r.SuspiciousEdges() <==> e in Elements(r.SuspiciousEdges());
  }

  /** Every import between distinct modules that lies on a directed cycle is called out. */
  lemma CyclicEdgeNeverAllowed(r: Report, g: Graph, e: Edge)
    requires Reports(r, g) && e in r.internalEdges && e.0 != e.1 && Reaches(g, e.1, e.0)
    ensures e !in r.Allowed()
    ensures e in r.forbiddenEdges || e in r.SuspiciousEdges()
  {
    EdgeNodes(g, r.internalEdges, e);
    ReachesSuccessor(g, e.0, e.1);
    assert Mutual(g, e.0, e.1) && Mutual(g, e.1, e.0);
    SuspiciousMeans(r, g, e);
    assert e in r.Allowed() <==> e in Elements(r.Allowed());
  }

  /** Allowed, forbidden and suspicious partition the internal edges, and their counts add up. */
  lemma StatesPartition(r: Report)
    requires Ascending(PairBefore, r.internalEdges)
    ensures Elements(r.Allowed()) + Elements(r.ForbiddenInternal()) + Elements(r.SuspiciousEdges())
            == Elements(r.internalEdges)
    ensures |r.Allowed()| + |r.ForbiddenInternal()| + |r.SuspiciousEdges()| == |r.internalEdges|
  {
    StateSets(r);
    PairsDistinct(r.internalEdges);
    SelectDistinct(r.internalEdges, r.AllowedSet());
    PartitionSize(r.AllowedSet(), r.ForbiddenSet(), r.SuspiciousSet());
  }

  lemma StateSets(r: Report)
    ensures r.AllowedSet() + r.ForbiddenSet() + r.SuspiciousSet() == Elements(r.internalEdges)
    ensures r.AllowedSet() !! r.ForbiddenSet() !! r.SuspiciousSet()
    ensures Elements(r.Allowed()) == r.AllowedSet()
  {
    forall e ensures e in r.SuspiciousEdges() <==> e in r.SuspiciousSet() {
      assert e in r.SuspiciousEdges() <==> e in Elements(r.SuspiciousEdges());
    }
  }

  lemma PartitionSize<T>(a: set<T>, b: set<T>, c: set<T>)
    requires a !! b !! c
    ensures |a + b + c| == |a| + |b| + |c|
  {
  }

  lemma SelectDistinct<T>(s: seq<T>, keep: set<T>)
    requires forall i, j :: 0 <= i < j < |s| ==> s[i] != s[j]
    ensures |Elements(Select(s, keep))| == |Select(s, keep)|
  {
    if s != [] {
      SelectDistinct(s[1..], keep);
      assert s[0] !in Elements(s[1..]);
      if s[0] in keep {
        assert Elements(Select(s, keep)) == {s[0]} + Elements(Select(s[1..], keep));
      }
    }
  }

  // ----- where the code and its description part

  /** The description asks for one cycle holding both ends; the code asks for any two cycles. */
  ghost predicate ShareCycle(cycles: seq<seq<string>>, e: Edge) {
    exists c :: c in cycles && e.0 in c && e.1 in c
  }

  lemma ShareCycleMeans(g: Graph, cycles: seq<seq<string>>, e: Edge)
    requires Lists(g, Nodes(g), cycles) && e.0 != e.1
    ensures ShareCycle(cycles, e) <==> e.0 in Nodes(g) && Mutual(g, e.0, e.1)
  {
    if ShareCycle(cycles, e) {
      var c :| c in cycles && e.0 in c && e.1 in c;
      assert StemsFrom(g, Nodes(g), c);
      var u :| u in Nodes(g) && Nontrivial(g, u) && Renders(g, c, u);
      assert e.0 in Elements(c) && e.1 in Elements(c);
      SameClass(g, u, e.0);
    }
    if e.0 in Nodes(g) && Mutual(g, e.0, e.1) {
      ReachesNode(g, e.0, e.1);
      InOwnClass(g, e.0);
      assert OnCycle(g, e.0);
      NontrivialIsOnCycle(g, e.0);
      assert Reported(g, cycles, e.0);
      var c :| c in cycles && Renders(g, c, e.0);
      assert e.0 in Elements(c) && e.1 in Elements(c);
    }
  }

  /**
   The code's cycle test agrees with its description on an edge exactly when the edge
   does not lead from one cycle into another without a way back.
   */
  lemma CycleTestAgreesWithDescription(r: Report, g: Graph, e: Edge)
    requires Reports(r, g) && e in r.internalEdges && e.0 != e.1
    ensures (e.0 in InCycle(r.moduleCycles) && e.1 in InCycle(r.moduleCycles) <==> ShareCycle(r.moduleCycles, e))
            <==> (OnCycle(g, e.0) && OnCycle(g, e.1) ==> Reaches(g, e.1, e.0))
  {
    EdgeNodes(g, r.internalEdges, e);
    ReachesSuccessor(g, e.0, e.1);
    InCycleMeans(g, r.moduleCycles, e.0);
    InCycleMeans(g, r.moduleCycles, e.1);
    ShareCycleMeans(g, r.moduleCycles, e);
    if Mutual(g, e.0, e.1) {
      assert Mutual(g, e.1, e.0);
      assert OnCycle(g, e.0) && OnCycle(g, e.1);
    }
  }

  /** An edge from one two-module cycle into another is flagged though no cycle holds both ends. */
  lemma BridgeIsFlagged(cycles: seq<seq<string>>)
    requires var g: Graph := map["a" := {"b"}, "b" := {"a", "c"}, "c" := {"d"}, "d" := {"c"}];
             Lists(g, Nodes(g), cycles)
    ensures "b" in InCycle(cycles) && "c" in InCycle(cycles) && !ShareCycle(cycles, ("b", "c"))
  {
    var g: Graph := map["a" := {"b"}, "b" := {"a", "c"}, "c" := {"d"}, "d" := {"c"}];
    ReachesSuccessor(g, "a", "b");
    ReachesSuccessor(g, "b", "a");
    ReachesSuccessor(g, "c", "d");
    ReachesSuccessor(g, "d", "c");
    assert "a" != "b" && "c" != "d" by { assert "a"[0] != "b"[0] && "c"[0] != "d"[0]; }
    assert Mutual(g, "b", "a") && Mutual(g, "c", "d");
    InCycleMeans(g, cycles, "b");
    InCycleMeans(g, cycles, "c");
    ShareCycleMeans(g, cycles, ("b", "c"));
    if Reaches(g, "c", "b") {
      ClosedKeepsReach(g, {"c", "d"}, "c", "b");
    }
  }
}
