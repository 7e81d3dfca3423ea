/**
 `graph_metrics.cycles`: Tarjan's algorithm on an explicit stack, proved to return
 exactly the mutual-reachability classes with two or more nodes.

 The method keeps the source's five mutable structures. Its invariant is stated on a
 snapshot of them, and each way the loop body can go has one lemma saying that the
 invariant survives it.
 */
module Tarjan {
  import opened Orders
  import opened Reachability

  /** One entry of `work`: a node, its sorted successors and the next one to read. */
  datatype Frame = Frame(node: string, successors: seq<string>, cursor: nat)

  /** The mutable structures of the search; `stack` is `component_stack`. */
  datatype Search = Search(
    index: map<string, nat>,
    lowlink: map<string, nat>,
    onStack: set<string>,
    stack: seq<string>,
    work: seq<Frame>,
    counter: nat
  ) {
    function Index(v: string): nat { if v in index then index[v] else 0 }

    function Low(v: string): nat { if v in lowlink then lowlink[v] else 0 }

    /** Nodes that still have a frame. */
    ghost function Open(): set<string> { set f | f in work :: f.node }

    /** Nodes that lost their frame but whose component is not closed. */
    ghost function Finished(): set<string> { onStack - Open() }

    /** Nodes whose component is closed. */
    ghost function Done(): set<string> { index.Keys - onStack }

    function Top(): Frame
      requires work != []
    {
      work[|work| - 1]
    }

    /** The stretch of the stack that belongs to frame `i`. */
    ghost predicate InRegion(i: nat, v: string)
      requires i < |work|
    {
      && Index(work[i].node) <= Index(v)
      && (i + 1 < |work| ==> Index(v) < Index(work[i + 1].node))
    }
  }

  // ----- the invariant, one aspect at a time

  ghost predicate Indexed(g: Graph, s: Search) {
    && s.index.Keys == s.lowlink.Keys
    && s.index.Keys <= Nodes(g)
    && (forall v | v in s.index :: s.Index(v) < s.counter)
    && (forall u, v | u in s.index && v in s.index && u != v :: s.Index(u) != s.Index(v))
  }

  ghost predicate Stacked(s: Search) {
    && s.onStack == Elements(s.stack)
    && s.onStack <= s.index.Keys
    && (forall i, j :: 0 <= i < j < |s.stack| ==> s.Index(s.stack[i]) < s.Index(s.stack[j]))
    && (s.work == [] ==> s.stack == [])
    && (s.work != [] ==> s.stack != [] && s.stack[0] == s.work[0].node)
  }

  ghost predicate FrameOk(g: Graph, s: Search, f: Frame) {
    && f.node in s.onStack
    && Elements(f.successors) == Successors(g, f.node)
    && f.cursor <= |f.successors|
    && (forall c :: 0 <= c < f.cursor ==> f.successors[c] in s.index)
  }

  ghost predicate Framed(g: Graph, s: Search) {
    && (forall i :: 0 <= i < |s.work| ==> FrameOk(g, s, s.work[i]))
    && (forall i, j :: 0 <= i < j < |s.work| ==> s.Index(s.work[i].node) < s.Index(s.work[j].node))
  }

  /** Closed components never lead out, and a finished node has only indexed successors. */
  ghost predicate Settled(g: Graph, s: Search) {
    && Closed(g, s.Done())
    && (forall v | v in s.Finished() :: Successors(g, v) <= s.index.Keys)
  }

  /** An open node reaches everything stacked above it. */
  ghost predicate Descends(g: Graph, s: Search) {
    forall i, v :: 0 <= i < |s.work| && v in s.onStack && s.Index(s.work[i].node) <= s.Index(v) ==>
      Reaches(g, s.work[i].node, v)
  }

  ghost predicate Witnessed(g: Graph, s: Search, v: string) {
    && s.Low(v) <= s.Index(v)
    && exists u :: u in s.onStack && s.Index(u) == s.Low(v) && Reaches(g, v, u)
  }

  /** A low link names a stacked node that can be reached; for finished nodes a lower one. */
  ghost predicate LowSound(g: Graph, s: Search) {
    && (forall v {:trigger Witnessed(g, s, v)} | v in s.onStack :: Witnessed(g, s, v))
    && (forall v | v in s.Finished() :: s.Low(v) < s.Index(v))
  }

  ghost predicate ReadBounded(s: Search, f: Frame) {
    forall c :: 0 <= c < f.cursor && c < |f.successors| && f.successors[c] in s.onStack ==>
      s.Low(f.node) <= s.Index(f.successors[c])
  }

  ghost predicate RegionBounded(g: Graph, s: Search, i: nat, v: string)
    requires i < |s.work|
  {
    forall x | x in Successors(g, v) && x in s.onStack :: s.Low(s.work[i].node) <= s.Index(x)
  }

  /** The low link of a frame bounds every edge it has read back into the stack. */
  ghost predicate FramesBounded(s: Search) {
    forall i :: 0 <= i < |s.work| ==> ReadBounded(s, s.work[i])
  }

  /** The low link of a frame bounds the edges of the finished nodes in its region. */
  ghost predicate RegionsBounded(g: Graph, s: Search) {
    forall i, v :: 0 <= i < |s.work| && v in s.Finished() && s.InRegion(i, v) ==> RegionBounded(g, s, i, v)
  }

  ghost predicate Inv(g: Graph, s: Search) {
    && Indexed(g, s) && Stacked(s) && Framed(g, s)
    && Settled(g, s) && Descends(g, s) && LowSound(g, s)
    && FramesBounded(s) && RegionsBounded(g, s)
  }

  // ----- indexing a new node

  function Visit(s: Search, x: string, successors: seq<string>): Search {
    Search(
      s.index[x := s.counter], s.lowlink[x := s.counter], s.onStack + {x}, s.stack + [x],
      s.work + [Frame(x, successors, 0)], s.counter + 1)
  }

  ghost predicate CanVisit(g: Graph, s: Search, x: string, successors: seq<string>) {
    && Inv(g, s)
    && x in Nodes(g) && x !in s.index
    && Elements(successors) == Successors(g, x)
    && (s.work != [] ==> x in Successors(g, s.Top().node))
  }

  lemma OpenOnStack(g: Graph, s: Search)
    requires Framed(g, s)
    ensures s.Open() <= s.onStack
  {
    forall f | f in s.work ensures f.node in s.onStack {
      assert FrameOk(g, s, f);
    }
  }

  lemma VisitShape(g: Graph, s: Search, x: string, successors: seq<string>)
    requires Stacked(s) && Framed(g, s) && x !in s.index && s.index.Keys == s.lowlink.Keys
    ensures var t := Visit(s, x, successors);
      && t.Open() == s.Open() + {x}
      && s.Open() <= s.onStack
      && x !in s.onStack
      && t.Finished() == s.Finished()
      && t.Done() == s.Done()
      && (forall v | v in s.index :: t.Index(v) == s.Index(v) && t.Low(v) == s.Low(v))
      && t.Index(x) == t.Low(x) == s.counter
  {
    var t := Visit(s, x, successors);
    OpenOnStack(g, s);
    assert forall f :: f in t.work <==> f in s.work || f == Frame(x, successors, 0);
  }

  lemma VisitIndexed(g: Graph, s: Search, x: string, successors: seq<string>)
    requires Indexed(g, s) && x !in s.index && x in Nodes(g)
    ensures Indexed(g, Visit(s, x, successors))
  {
  }

  lemma VisitStacked(g: Graph, s: Search, x: string, successors: seq<string>)
    requires Indexed(g, s) && Stacked(s) && x !in s.index
    ensures Stacked(Visit(s, x, successors))
  {
    assert forall i :: 0 <= i < |s.stack| ==> s.stack[i] in Elements(s.stack);
  }

  lemma VisitFrame(g: Graph, s: Search, x: string, successors: seq<string>, f: Frame)
    requires Stacked(s) && FrameOk(g, s, f) && x !in s.index
    ensures FrameOk(g, Visit(s, x, successors), f)
  {
  }

  lemma VisitFramed(g: Graph, s: Search, x: string, successors: seq<string>)
    requires Indexed(g, s) && Stacked(s) && Framed(g, s)
    requires x !in s.index && Elements(successors) == Successors(g, x)
    ensures Framed(g, Visit(s, x, successors))
  {
    var t := Visit(s, x, successors);
    forall i | 0 <= i < |t.work| ensures FrameOk(g, t, t.work[i]) {
      if i < |s.work| {
        assert FrameOk(g, s, s.work[i]);
        VisitFrame(g, s, x, successors, s.work[i]);
      }
    }
    forall i, j | 0 <= i < j < |t.work| ensures t.Index(t.work[i].node) < t.Index(t.work[j].node) {
      VisitOrder(g, s, x, successors, i, j);
    }
  }

  lemma VisitOrder(g: Graph, s: Search, x: string, successors: seq<string>, i: nat, j: nat)
    requires Indexed(g, s) && Stacked(s) && Framed(g, s) && x !in s.index && i < j <= |s.work|
    ensures var t := Visit(s, x, successors); t.Index(t.work[i].node) < t.Index(t.work[j].node)
  {
    assert FrameOk(g, s, s.work[i]);
    if j < |s.work| {
      assert FrameOk(g, s, s.work[j]);
      assert s.Index(s.work[i].node) < s.Index(s.work[j].node);
    }
  }

  lemma VisitSettled(g: Graph, s: Search, x: string, successors: seq<string>)
    requires Indexed(g, s) && Stacked(s) && Framed(g, s) && Settled(g, s) && x !in s.index
    ensures Settled(g, Visit(s, x, successors))
  {
    VisitShape(g, s, x, successors);
  }

  lemma OpenReachesNew(g: Graph, s: Search, x: string, i: nat)
    requires Stacked(s) && Framed(g, s) && Descends(g, s)
    requires i < |s.work| && x in Successors(g, s.Top().node)
    ensures Reaches(g, s.work[i].node, x)
  {
    assert FrameOk(g, s, s.work[i]) && FrameOk(g, s, s.Top());
    ReachesSuccessor(g, s.Top().node, x);
    assert s.Index(s.work[i].node) <= s.Index(s.Top().node);
    ReachesTransitive(g, s.work[i].node, s.Top().node, x);
  }

  lemma VisitDescent(g: Graph, s: Search, x: string, successors: seq<string>, i: nat, v: string)
    requires Indexed(g, s) && Stacked(s) && Framed(g, s) && Descends(g, s)
    requires x !in s.index && i < |s.work| && v in s.onStack
    requires Visit(s, x, successors).Index(s.work[i].node) <= Visit(s, x, successors).Index(v)
    ensures Reaches(g, s.work[i].node, v)
  {
    assert FrameOk(g, s, s.work[i]);
    assert s.Index(s.work[i].node) <= s.Index(v);
  }

  lemma VisitDescends(g: Graph, s: Search, x: string, successors: seq<string>)
    requires Indexed(g, s) && Stacked(s) && Framed(g, s) && Descends(g, s)
    requires x !in s.index && (s.work != [] ==> x in Successors(g, s.Top().node))
    ensures Descends(g, Visit(s, x, successors))
  {
    var t := Visit(s, x, successors);
    forall i, v | 0 <= i < |t.work| && v in t.onStack && t.Index(t.work[i].node) <= t.Index(v)
      ensures Reaches(g, t.work[i].node, v)
    {
      if i == |s.work| {
        NewIsLast(s, x, successors, v);
        ReachesSelf(g, x);
      } else if v == x {
        OpenReachesNew(g, s, x, i);
      } else {
        VisitDescent(g, s, x, successors, i, v);
      }
    }
  }

  /** Only the new node has an index that is not below the counter. */
  lemma NewIsLast(s: Search, x: string, successors: seq<string>, v: string)
    requires Stacked(s) && (forall u | u in s.index :: s.Index(u) < s.counter)
    requires v in s.onStack + {x} && Visit(s, x, successors).Index(x) <= Visit(s, x, successors).Index(v)
    ensures v == x
  {
  }

  lemma VisitLowSound(g: Graph, s: Search, x: string, successors: seq<string>)
    requires Indexed(g, s) && Stacked(s) && Framed(g, s) && LowSound(g, s) && x !in s.index
    ensures LowSound(g, Visit(s, x, successors))
  {
    VisitShape(g, s, x, successors);
    var t := Visit(s, x, successors);
    ReachesSelf(g, x);
    forall v | v in t.onStack ensures Witnessed(g, t, v) {
      if v != x { assert Witnessed(g, s, v); }
    }
  }

  lemma VisitFramesBounded(g: Graph, s: Search, x: string, successors: seq<string>)
    requires Indexed(g, s) && Stacked(s) && Framed(g, s) && LowSound(g, s) && x !in s.index
    requires FramesBounded(s)
    ensures FramesBounded(Visit(s, x, successors))
  {
    VisitShape(g, s, x, successors);
    var t := Visit(s, x, successors);
    forall i | 0 <= i < |t.work| ensures ReadBounded(t, t.work[i]) {
      if i < |s.work| {
        assert FrameOk(g, s, s.work[i]) && ReadBounded(s, s.work[i]) && Witnessed(g, s, s.work[i].node);
      }
    }
  }

  lemma VisitInRegion(g: Graph, s: Search, x: string, successors: seq<string>, i: nat, v: string)
    requires Indexed(g, s) && Stacked(s) && Framed(g, s) && x !in s.index
    requires i <= |s.work| && v in s.onStack && Visit(s, x, successors).InRegion(i, v)
    ensures i < |s.work| && s.InRegion(i, v)
  {
    VisitShape(g, s, x, successors);
    assert s.Index(v) < s.counter;
    assert i < |s.work|;
    assert FrameOk(g, s, s.work[i]);
    if i + 1 < |s.work| { assert FrameOk(g, s, s.work[i + 1]); }
  }

  lemma VisitRegionsBounded(g: Graph, s: Search, x: string, successors: seq<string>)
    requires Indexed(g, s) && Stacked(s) && Framed(g, s) && LowSound(g, s) && x !in s.index
    requires RegionsBounded(g, s)
    ensures RegionsBounded(g, Visit(s, x, successors))
  {
    var t := Visit(s, x, successors);
    forall i, v | 0 <= i < |t.work| && v in t.Finished() && t.InRegion(i, v) ensures RegionBounded(g, t, i, v) {
      VisitRegion(g, s, x, successors, i, v);
    }
  }

  lemma VisitRegion(g: Graph, s: Search, x: string, successors: seq<string>, i: nat, v: string)
    requires Indexed(g, s) && Stacked(s) && Framed(g, s) && LowSound(g, s) && x !in s.index && RegionsBounded(g, s)
    requires var t := Visit(s, x, successors); i < |t.work| && v in t.Finished() && t.InRegion(i, v)
    ensures RegionBounded(g, Visit(s, x, successors), i, v)
  {
    VisitShape(g, s, x, successors);
    VisitInRegion(g, s, x, successors, i, v);
    assert RegionBounded(g, s, i, v);
    assert FrameOk(g, s, s.work[i]) && Witnessed(g, s, s.work[i].node);
    VisitBound(g, s, x, successors, i, v);
  }

  lemma VisitBound(g: Graph, s: Search, x: string, successors: seq<string>, i: nat, v: string)
    requires i < |s.work| && s.onStack <= s.index.Keys && s.index.Keys == s.lowlink.Keys && x !in s.index
    requires s.work[i].node in s.index && s.Low(s.work[i].node) <= s.counter && RegionBounded(g, s, i, v)
    ensures RegionBounded(g, Visit(s, x, successors), i, v)
  {
  }

  lemma VisitKeeps(g: Graph, s: Search, x: string, successors: seq<string>)
    requires CanVisit(g, s, x, successors)
    ensures Inv(g, Visit(s, x, successors))
  {
    VisitIndexed(g, s, x, successors);
    VisitStacked(g, s, x, successors);
    VisitFramed(g, s, x, successors);
    VisitSettled(g, s, x, successors);
    VisitDescends(g, s, x, successors);
    VisitLowSound(g, s, x, successors);
    VisitFramesBounded(g, s, x, successors);
    VisitRegionsBounded(g, s, x, successors);
  }

  // ----- steps that leave the index, the stack and the frames' nodes alone

  ghost predicate SameShape(s: Search, t: Search) {
    && t.index == s.index && t.counter == s.counter && t.onStack == s.onStack && t.stack == s.stack
    && t.lowlink.Keys == s.lowlink.Keys
    && |t.work| == |s.work|
    && (forall j :: 0 <= j < |t.work| ==> t.work[j].node == s.work[j].node)
  }

  lemma SameOpen(s: Search, t: Search)
    requires SameShape(s, t)
    ensures t.Open() == s.Open()
    ensures forall v :: t.Index(v) == s.Index(v)
  {
    forall v ensures v in t.Open() <==> v in s.Open() {
      if v in t.Open() { var j :| 0 <= j < |t.work| && t.work[j].node == v; assert s.work[j] in s.work; }
      if v in s.Open() { var j :| 0 <= j < |s.work| && s.work[j].node == v; assert t.work[j] in t.work; }
    }
  }

  lemma SameBasics(g: Graph, s: Search, t: Search)
    requires SameShape(s, t) && Indexed(g, s) && Stacked(s)
    ensures Indexed(g, t) && Stacked(t)
  {
    SameOpen(s, t);
  }

  lemma SameSettled(g: Graph, s: Search, t: Search)
    requires SameShape(s, t) && Settled(g, s)
    ensures Settled(g, t)
  {
    SameOpen(s, t);
    assert t.Finished() == s.Finished() && t.Done() == s.Done();
  }

  lemma SameDescends(g: Graph, s: Search, t: Search)
    requires SameShape(s, t) && Descends(g, s)
    ensures Descends(g, t)
  {
    SameOpen(s, t);
  }

  lemma SameRegions(g: Graph, s: Search, t: Search)
    requires SameShape(s, t) && RegionsBounded(g, s) && forall v :: t.Low(v) <= s.Low(v)
    ensures RegionsBounded(g, t)
  {
    SameOpen(s, t);
    forall j, v | 0 <= j < |t.work| && v in t.Finished() && t.InRegion(j, v) ensures RegionBounded(g, t, j, v) {
      assert s.InRegion(j, v);
      assert RegionBounded(g, s, j, v);
    }
  }

  lemma SameLowSound(g: Graph, s: Search, t: Search)
    requires SameShape(s, t) && LowSound(g, s)
    requires forall v | v in s.onStack && t.Low(v) != s.Low(v) :: Witnessed(g, t, v) && t.Low(v) < s.Low(v)
    ensures LowSound(g, t)
  {
    SameOpen(s, t);
    forall v | v in t.onStack ensures Witnessed(g, t, v) { assert Witnessed(g, s, v); }
  }

  /** Read one more successor of frame `i`. */
  function ReadNext(s: Search, i: nat): Search
    requires i < |s.work|
  {
    s.(work := s.work[i := s.work[i].(cursor := s.work[i].cursor + 1)])
  }

  ghost predicate CanRead(g: Graph, s: Search, i: nat) {
    && Inv(g, s)
    && i < |s.work| && s.work[i].cursor < |s.work[i].successors|
    && var x := s.work[i].successors[s.work[i].cursor];
       && x in s.index
       && (x in s.onStack ==> s.Low(s.work[i].node) <= s.Index(x))
  }

  lemma ReadFrames(g: Graph, s: Search, i: nat)
    requires i < |s.work| && Framed(g, s) && FramesBounded(s) && s.work[i].cursor < |s.work[i].successors|
    requires s.work[i].successors[s.work[i].cursor] in s.index
    requires s.work[i].successors[s.work[i].cursor] in s.onStack ==>
               s.Low(s.work[i].node) <= s.Index(s.work[i].successors[s.work[i].cursor])
    ensures Framed(g, ReadNext(s, i)) && FramesBounded(ReadNext(s, i))
  {
    var t := ReadNext(s, i);
    forall j | 0 <= j < |t.work| ensures FrameOk(g, t, t.work[j]) && ReadBounded(t, t.work[j]) {
      assert FrameOk(g, s, s.work[j]) && ReadBounded(s, s.work[j]);
    }
  }

  lemma ReadKeeps(g: Graph, s: Search, i: nat)
    requires CanRead(g, s, i)
    ensures Inv(g, ReadNext(s, i))
  {
    var t := ReadNext(s, i);
    SameBasics(g, s, t);
    SameSettled(g, s, t);
    SameDescends(g, s, t);
    SameRegions(g, s, t);
    SameLowSound(g, s, t);
    ReadFrames(g, s, i);
  }

  /** `lowlink[v] = min(lowlink[v], bound)`. */
  function Lower(s: Search, v: string, bound: nat): Search {
    s.(lowlink := s.lowlink[v := if bound < s.Low(v) then bound else s.Low(v)])
  }

  /** The bound is the index of a stacked node that `v` reaches. */
  ghost predicate CanLower(g: Graph, s: Search, v: string, bound: nat) {
    && Inv(g, s)
    && v in s.onStack
    && exists u :: u in s.onStack && s.Index(u) == bound && Reaches(g, v, u)
  }

  lemma LowerFrames(g: Graph, s: Search, v: string, bound: nat)
    requires Framed(g, s) && FramesBounded(s)
    ensures Framed(g, Lower(s, v, bound)) && FramesBounded(Lower(s, v, bound))
  {
    var t := Lower(s, v, bound);
    forall j | 0 <= j < |t.work| ensures FrameOk(g, t, t.work[j]) && ReadBounded(t, t.work[j]) {
      assert FrameOk(g, s, s.work[j]) && ReadBounded(s, s.work[j]);
    }
  }

  lemma LowerSound(g: Graph, s: Search, v: string, bound: nat)
    requires CanLower(g, s, v, bound)
    ensures LowSound(g, Lower(s, v, bound))
  {
    var t := Lower(s, v, bound);
    assert Witnessed(g, s, v) && Witnessed(g, t, v);
    SameLowSound(g, s, t);
  }

  lemma LowerKeeps(g: Graph, s: Search, v: string, bound: nat)
    requires CanLower(g, s, v, bound)
    ensures Inv(g, Lower(s, v, bound))
  {
    var t := Lower(s, v, bound);
    assert SameShape(s, t);
    SameBasics(g, s, t);
    SameSettled(g, s, t);
    SameDescends(g, s, t);
    SameRegions(g, s, t);
    LowerSound(g, s, v, bound);
    LowerFrames(g, s, v, bound);
  }

  // ----- leaving a node whose component is still open

  function Pop(s: Search): Search
    requires s.work != []
  {
    s.(work := s.work[..|s.work| - 1])
  }

  ghost predicate Exhausted(s: Search) {
    s.work != [] && s.Top().cursor >= |s.Top().successors|
  }

  lemma OpenAt(s: Search, v: string) returns (j: nat)
    requires v in s.Open()
    ensures j < |s.work| && s.work[j].node == v
  {
    var f :| f in s.work && f.node == v;
    j :| 0 <= j < |s.work| && s.work[j] == f;
  }

  lemma PopShape(g: Graph, s: Search)
    requires Framed(g, s) && s.work != []
    ensures Pop(s).Open() == s.Open() - {s.Top().node}
    ensures s.Top().node in s.Open()
    ensures forall v | v in s.Open() :: s.Index(v) <= s.Index(s.Top().node)
  {
    var t := Pop(s);
    var k := |s.work| - 1;
    assert s.work[k] in s.work;
    forall v | v in s.Open() ensures v == s.Top().node || (v in t.Open() && s.Index(v) < s.Index(s.Top().node)) {
      var j := OpenAt(s, v);
      assert j < k ==> t.work[j] == s.work[j] && t.work[j] in t.work;
    }
    forall v | v in t.Open() ensures v in s.Open() && v != s.Top().node {
      var j := OpenAt(t, v);
      assert s.work[j] == t.work[j] && s.work[j] in s.work;
    }
  }

  lemma PopFrames(g: Graph, s: Search)
    requires s.work != [] && Framed(g, s) && FramesBounded(s) && Descends(g, s)
    ensures Framed(g, Pop(s)) && FramesBounded(Pop(s)) && Descends(g, Pop(s))
  {
    var t := Pop(s);
    forall j | 0 <= j < |t.work| ensures FrameOk(g, t, t.work[j]) && ReadBounded(t, t.work[j]) {
      assert t.work[j] == s.work[j];
      assert FrameOk(g, s, s.work[j]) && ReadBounded(s, s.work[j]);
    }
  }

  /** Every successor of an exhausted frame has been read. */
  lemma ExhaustedRead(g: Graph, s: Search, x: string)
    requires Exhausted(s) && Framed(g, s) && FramesBounded(s) && x in Successors(g, s.Top().node)
    ensures x in s.index
    ensures x in s.onStack ==> s.Low(s.Top().node) <= s.Index(x)
  {
    var k := |s.work| - 1;
    assert FrameOk(g, s, s.work[k]) && ReadBounded(s, s.work[k]);
    assert x in Elements(s.Top().successors);
    var c :| 0 <= c < |s.Top().successors| && s.Top().successors[c] == x;
  }

  /** The top node is read to the end, does not close a component, and its low link was handed up. */
  ghost predicate LowEnough(s: Search) {
    && Exhausted(s) && |s.work| >= 2
    && s.Low(s.Top().node) < s.Index(s.Top().node)
    && s.Low(s.work[|s.work| - 2].node) <= s.Low(s.Top().node)
  }

  ghost predicate CanPop(g: Graph, s: Search) {
    Inv(g, s) && LowEnough(s)
  }

  lemma PopSettled(g: Graph, s: Search)
    requires Exhausted(s) && Framed(g, s) && FramesBounded(s) && Settled(g, s)
    ensures Settled(g, Pop(s))
  {
    PopShape(g, s);
    var t := Pop(s);
    forall v | v in t.Finished() ensures Successors(g, v) <= t.index.Keys {
      if v == s.Top().node {
        forall x | x in Successors(g, v) ensures x in t.index { ExhaustedRead(g, s, x); }
      } else {
        assert v in s.Finished();
      }
    }
  }

  lemma PopLowSound(g: Graph, s: Search)
    requires s.work != [] && Framed(g, s) && LowSound(g, s) && s.Low(s.Top().node) < s.Index(s.Top().node)
    ensures LowSound(g, Pop(s))
  {
    PopShape(g, s);
    var t := Pop(s);
    forall v | v in t.onStack ensures Witnessed(g, t, v) {
      assert Witnessed(g, s, v);
      PopWitness(g, s, v);
    }
    assert t.Finished() <= s.Finished() + {s.Top().node};
  }

  lemma PopWitness(g: Graph, s: Search, v: string)
    requires s.work != [] && Witnessed(g, s, v)
    ensures Witnessed(g, Pop(s), v)
  {
    var u :| u in s.onStack && s.Index(u) == s.Low(v) && Reaches(g, v, u);
    assert u in Pop(s).onStack && Pop(s).Index(u) == Pop(s).Low(v);
  }

  /** The edges of the node that loses its frame are bounded by what it handed up. */
  lemma PopTopRegion(g: Graph, s: Search)
    requires Framed(g, s) && FramesBounded(s) && LowEnough(s)
    ensures RegionBounded(g, Pop(s), |s.work| - 2, s.Top().node)
  {
    forall x | x in Successors(g, s.Top().node) && x in s.onStack
      ensures s.Low(s.work[|s.work| - 2].node) <= s.Index(x)
    {
      ExhaustedRead(g, s, x);
    }
  }

  lemma PopRegion(g: Graph, s: Search, i: nat, v: string)
    requires Stacked(s) && Framed(g, s) && FramesBounded(s) && RegionsBounded(g, s) && LowEnough(s)
    requires i < |s.work| - 1 && v in Pop(s).Finished() && Pop(s).InRegion(i, v)
    ensures RegionBounded(g, Pop(s), i, v)
  {
    PopShape(g, s);
    var k := |s.work| - 1;
    var t := Pop(s);
    assert t.work[i] == s.work[i];
    if v == s.Top().node {
      assert i == k - 1;
      PopTopRegion(g, s);
    } else {
      assert v in s.Finished();
      if i < k - 1 {
        assert t.work[i + 1] == s.work[i + 1];
        assert s.InRegion(i, v);
        assert RegionBounded(g, s, i, v);
      } else if s.Index(v) < s.Index(s.Top().node) {
        assert s.InRegion(i, v);
        assert RegionBounded(g, s, i, v);
      } else {
        assert s.InRegion(k, v);
        assert RegionBounded(g, s, k, v);
      }
    }
  }

  lemma PopRegions(g: Graph, s: Search)
    requires CanPop(g, s)
    ensures RegionsBounded(g, Pop(s))
  {
    var t := Pop(s);
    forall i, v | 0 <= i < |t.work| && v in t.Finished() && t.InRegion(i, v) ensures RegionBounded(g, t, i, v) {
      PopRegion(g, s, i, v);
    }
  }

  lemma PopBasics(g: Graph, s: Search)
    requires Indexed(g, s) && Stacked(s) && |s.work| >= 2
    ensures Indexed(g, Pop(s)) && Stacked(Pop(s))
  {
    assert Pop(s).work[0] == s.work[0];
  }

  lemma PopKeeps(g: Graph, s: Search)
    requires CanPop(g, s)
    ensures Inv(g, Pop(s))
  {
    PopBasics(g, s);
    PopFrames(g, s);
    PopSettled(g, s);
    PopLowSound(g, s);
    PopRegions(g, s);
  }

  // ----- closing a component

  function Close(s: Search, p: nat): Search
    requires s.work != [] && p <= |s.stack|
  {
    s.(work := s.work[..|s.work| - 1], stack := s.stack[..p], onStack := s.onStack - Elements(s.stack[p..]))
  }

  ghost predicate CanClose(g: Graph, s: Search, p: nat) {
    && Inv(g, s) && Exhausted(s)
    && p < |s.stack| && s.stack[p] == s.Top().node
    && s.Low(s.Top().node) == s.Index(s.Top().node)
  }

  /** Cutting a list without repetitions in two cuts its elements in two. */
  lemma CutElements(list: seq<string>, p: nat)
    requires p <= |list| && forall i, j :: 0 <= i < j < |list| ==> list[i] != list[j]
    ensures Elements(list) - Elements(list[p..]) == Elements(list[..p])
  {
    assert list == list[..p] + list[p..];
    assert forall v :: v in list <==> v in list[..p] || v in list[p..];
    forall i | 0 <= i < p ensures list[i] !in list[p..] {
      assert forall k | 0 <= k < |list[p..]| :: list[p..][k] == list[p + k];
    }
    assert forall v | v in list[..p] :: v !in list[p..];
  }

  lemma CloseMember(s: Search, p: nat, v: string)
    requires Stacked(s) && p < |s.stack| && v in s.onStack
    ensures v in Elements(s.stack[p..]) <==> s.Index(s.stack[p]) <= s.Index(v)
  {
    var i :| 0 <= i < |s.stack| && s.stack[i] == v;
    if i >= p {
      assert s.stack[p..][i - p] == v;
    } else {
      assert forall k | 0 <= k < |s.stack[p..]| :: s.stack[p..][k] == s.stack[p + k];
      assert s.Index(v) < s.Index(s.stack[p]);
    }
  }

  /** What is cut off is what was indexed from the component's root on. */
  lemma CloseShape(g: Graph, s: Search, p: nat)
    requires Stacked(s) && p < |s.stack|
    ensures forall v | v in s.onStack :: v in Elements(s.stack[p..]) <==> s.Index(s.stack[p]) <= s.Index(v)
    ensures s.onStack - Elements(s.stack[p..]) == Elements(s.stack[..p])
  {
    forall v | v in s.onStack ensures v in Elements(s.stack[p..]) <==> s.Index(s.stack[p]) <= s.Index(v) {
      CloseMember(s, p, v);
    }
    CutElements(s.stack, p);
  }

  lemma CloseEdge(g: Graph, s: Search, p: nat, v: string, x: string)
    requires CanClose(g, s, p)
    requires v in Elements(s.stack[p..]) && x in Successors(g, v)
    ensures x in s.Done() + Elements(s.stack[p..])
  {
    CloseShape(g, s, p);
    if v == s.Top().node {
      ExhaustedRead(g, s, x);
    } else {
      PopShape(g, s);
      assert v in s.Finished();
      var k := |s.work| - 1;
      assert s.InRegion(k, v);
      assert RegionBounded(g, s, k, v);
    }
  }

  lemma CloseIsClosed(g: Graph, s: Search, p: nat)
    requires CanClose(g, s, p)
    ensures Closed(g, s.Done() + Elements(s.stack[p..]))
  {
    forall v, x | v in Elements(s.stack[p..]) && x in Successors(g, v)
      ensures x in s.Done() + Elements(s.stack[p..])
    {
      CloseEdge(g, s, p, v, x);
    }
  }

  lemma MemberReachesRoot(g: Graph, s: Search, p: nat, v: string)
    requires CanClose(g, s, p) && v in Elements(s.stack[p..])
    ensures Reaches(g, v, s.Top().node)
    decreases s.Index(v)
  {
    CloseShape(g, s, p);
    PopShape(g, s);
    if v == s.Top().node {
      ReachesSelf(g, v);
    } else {
      assert v in s.Finished();
      assert Witnessed(g, s, v);
      var u :| u in s.onStack && s.Index(u) == s.Low(v) && Reaches(g, v, u);
      CloseIsClosed(g, s, p);
      ClosedKeepsReach(g, s.Done() + Elements(s.stack[p..]), v, u);
      MemberReachesRoot(g, s, p, u);
      ReachesTransitive(g, v, u, s.Top().node);
    }
  }

  /** The nodes popped together are one mutual-reachability class. */
  lemma ClosedIsClass(g: Graph, s: Search, p: nat)
    requires CanClose(g, s, p)
    ensures Elements(s.stack[p..]) == ClassOf(g, s.Top().node)
    ensures s.Top().node in Elements(s.stack[p..])
  {
    var root := s.Top().node;
    var members := Elements(s.stack[p..]);
    CloseShape(g, s, p);
    CloseIsClosed(g, s, p);
    forall v | v in members ensures v in ClassOf(g, root) {
      MemberReachesRoot(g, s, p, v);
      assert Reaches(g, root, v);
    }
    forall u | u in ClassOf(g, root) ensures u in members {
      ClosedKeepsReach(g, s.Done() + members, root, u);
      if u in s.Done() { ClosedKeepsReach(g, s.Done(), u, root); }
    }
  }

  lemma CloseBasics(g: Graph, s: Search, p: nat)
    requires Indexed(g, s) && Stacked(s) && Framed(g, s) && s.work != []
    requires p < |s.stack| && s.stack[p] == s.Top().node
    ensures var t := Close(s, p); Indexed(g, t) && Stacked(t)
  {
    CloseShape(g, s, p);
    var t := Close(s, p);
    if |s.work| == 1 {
      assert p == 0;
    } else {
      assert t.work[0] == s.work[0];
      assert p > 0;
      assert t.stack[0] == s.stack[0];
    }
  }

  lemma CloseFrames(g: Graph, s: Search, p: nat)
    requires Stacked(s) && Framed(g, s) && FramesBounded(s) && Descends(g, s) && s.work != []
    requires p < |s.stack| && s.stack[p] == s.Top().node
    ensures var t := Close(s, p); Framed(g, t) && FramesBounded(t) && Descends(g, t)
  {
    PopFrames(g, s);
    CloseShape(g, s, p);
    assert Descends(g, Close(s, p)) by {
      assert Descends(g, Pop(s));
    }
    forall j | 0 <= j < |s.work| - 1 ensures FrameOk(g, Close(s, p), s.work[j]) && ReadBounded(Close(s, p), s.work[j]) {
      CloseFrame(g, s, p, j);
    }
  }

  lemma CloseFrame(g: Graph, s: Search, p: nat, j: nat)
    requires Stacked(s) && Framed(g, s) && FramesBounded(s) && j + 1 < |s.work|
    requires p < |s.stack| && s.stack[p] == s.Top().node
    ensures FrameOk(g, Close(s, p), s.work[j]) && ReadBounded(Close(s, p), s.work[j])
  {
    assert FrameOk(g, s, s.work[j]) && ReadBounded(s, s.work[j]);
    CloseMember(s, p, s.work[j].node);
  }

  lemma CloseFinished(g: Graph, s: Search, p: nat)
    requires Stacked(s) && Framed(g, s) && s.work != []
    requires p < |s.stack| && s.stack[p] == s.Top().node
    ensures Close(s, p).Finished() <= s.Finished()
    ensures Close(s, p).Done() == s.Done() + Elements(s.stack[p..])
  {
    PopShape(g, s);
    var t := Close(s, p);
    assert t.Open() == Pop(s).Open();
    assert s.Top().node in Elements(s.stack[p..]) by { assert s.stack[p..][0] == s.Top().node; }
    CloseShape(g, s, p);
  }

  lemma CloseWitness(g: Graph, s: Search, p: nat, v: string)
    requires Stacked(s) && p < |s.stack| && s.work != []
    requires Witnessed(g, s, v) && v in Close(s, p).onStack
    ensures Witnessed(g, Close(s, p), v)
  {
    CloseShape(g, s, p);
    var u :| u in s.onStack && s.Index(u) == s.Low(v) && Reaches(g, v, u);
    assert u in Close(s, p).onStack;
  }

  lemma CloseLowSound(g: Graph, s: Search, p: nat)
    requires Stacked(s) && Framed(g, s) && LowSound(g, s) && s.work != []
    requires p < |s.stack| && s.stack[p] == s.Top().node
    ensures LowSound(g, Close(s, p))
  {
    CloseFinished(g, s, p);
    var t := Close(s, p);
    forall v | v in t.onStack ensures Witnessed(g, t, v) {
      assert Witnessed(g, s, v);
      CloseWitness(g, s, p, v);
    }
  }

  lemma CloseRegions(g: Graph, s: Search, p: nat)
    requires Stacked(s) && Framed(g, s) && RegionsBounded(g, s) && s.work != []
    requires p < |s.stack| && s.stack[p] == s.Top().node
    ensures RegionsBounded(g, Close(s, p))
  {
    CloseFinished(g, s, p);
    CloseShape(g, s, p);
    var t := Close(s, p);
    forall i, v | 0 <= i < |t.work| && v in t.Finished() && t.InRegion(i, v) ensures RegionBounded(g, t, i, v) {
      assert s.InRegion(i, v);
      assert RegionBounded(g, s, i, v);
    }
  }

  lemma CloseKeeps(g: Graph, s: Search, p: nat)
    requires CanClose(g, s, p)
    ensures Inv(g, Close(s, p))
  {
    CloseBasics(g, s, p);
    CloseFrames(g, s, p);
    CloseIsClosed(g, s, p);
    CloseFinished(g, s, p);
    CloseLowSound(g, s, p);
    CloseRegions(g, s, p);
    assert Settled(g, Close(s, p)) by {
      assert forall v | v in s.Finished() :: Successors(g, v) <= s.index.Keys;
    }
  }

  // ----- the algorithm

  /** `component` is the sorted listing of the class of `v`. */
  ghost predicate Renders(g: Graph, component: seq<string>, v: string) {
    Ascending(StringBefore, component) && Elements(component) == ClassOf(g, v)
  }

  ghost predicate Nontrivial(g: Graph, v: string) {
    |ClassOf(g, v)| > 1
  }

  /** `component` lists the class of one of the `done` nodes, a class of two or more. */
  ghost predicate StemsFrom(g: Graph, done: set<string>, component: seq<string>) {
    exists v :: v in done && Nontrivial(g, v) && Renders(g, component, v)
  }

  ghost predicate Reported(g: Graph, found: seq<seq<string>>, v: string) {
    exists c :: c in found && Renders(g, c, v)
  }

  /** `found` lists each class of two or more among the `done` nodes, once. */
  ghost predicate Lists(g: Graph, done: set<string>, found: seq<seq<string>>) {
    && (forall c {:trigger StemsFrom(g, done, c)} | c in found :: StemsFrom(g, done, c))
    && (forall v {:trigger Reported(g, found, v)} | v in done && Nontrivial(g, v) :: Reported(g, found, v))
    && (forall i, j :: 0 <= i < j < |found| ==> found[i] != found[j])
  }

  /** Successors still to be read on the open frames. */
  ghost function Unread(work: seq<Frame>): nat {
    if work == [] then 0
    else
      var f := work[|work| - 1];
      Unread(work[..|work| - 1]) + if f.cursor < |f.successors| then |f.successors| - f.cursor else 0
  }

  /** The invariant of the whole search: the structures, and what has been reported. */
  ghost predicate Good(g: Graph, s: Search, found: seq<seq<string>>) {
    Inv(g, s) && Lists(g, s.Done(), found)
  }

  lemma EnterGood(g: Graph, s: Search, found: seq<seq<string>>, x: string, successors: seq<string>)
    requires Good(g, s, found)
    requires x in Nodes(g) && x !in s.index && Elements(successors) == Successors(g, x)
    requires s.work != [] ==> x in Successors(g, s.Top().node)
    ensures Good(g, Visit(s, x, successors), found)
  {
    VisitKeeps(g, s, x, successors);
    VisitShape(g, s, x, successors);
  }

  /** `sorted(names)`. */
  method SortNames(names: set<string>) returns (list: seq<string>)
    ensures Elements(list) == names && Ascending(StringBefore, list)
  {
    list := SortedNames(names);
  }

  /** Frame `i` has a successor left to read, and the low link already accounts for it. */
  lemma ReadGood(g: Graph, s: Search, found: seq<seq<string>>, i: nat)
    requires Good(g, s, found)
    requires i < |s.work| && s.work[i].cursor < |s.work[i].successors|
    requires s.work[i].successors[s.work[i].cursor] in s.index
    requires s.work[i].successors[s.work[i].cursor] in s.onStack ==>
               s.Low(s.work[i].node) <= s.Index(s.work[i].successors[s.work[i].cursor])
    ensures Good(g, ReadNext(s, i), found)
  {
    ReadKeeps(g, s, i);
  }

  /** Reading a successor that was indexed before, open or closed. */
  lemma RevisitGood(g: Graph, s: Search, found: seq<seq<string>>)
    requires Good(g, s, found) && s.work != [] && s.Top().cursor < |s.Top().successors|
    requires s.Top().successors[s.Top().cursor] in s.index
    ensures var x := s.Top().successors[s.Top().cursor];
      var t := if x in s.onStack then Lower(s, s.Top().node, s.Index(x)) else s;
      Good(g, ReadNext(t, |s.work| - 1), found)
  {
    var i := |s.work| - 1;
    var x := s.Top().successors[s.Top().cursor];
    assert FrameOk(g, s, s.work[i]);
    if x in s.onStack {
      LowerGood(g, s, found);
      ReadGood(g, Lower(s, s.Top().node, s.Index(x)), found, i);
    } else {
      ReadGood(g, s, found, i);
    }
  }

  lemma LowerGood(g: Graph, s: Search, found: seq<seq<string>>)
    requires Good(g, s, found) && s.work != [] && s.Top().cursor < |s.Top().successors|
    requires s.Top().successors[s.Top().cursor] in s.onStack
    ensures Good(g, Lower(s, s.Top().node, s.Index(s.Top().successors[s.Top().cursor])), found)
  {
    var x := s.Top().successors[s.Top().cursor];
    assert FrameOk(g, s, s.work[|s.work| - 1]);
    ReachesSuccessor(g, s.Top().node, x);
    LowerKeeps(g, s, s.Top().node, s.Index(x));
  }

  /** Reading a successor that was not indexed: it is entered first. */
  lemma DescendGood(g: Graph, s: Search, found: seq<seq<string>>, successors: seq<string>)
    requires Good(g, s, found) && s.work != [] && s.Top().cursor < |s.Top().successors|
    requires s.Top().successors[s.Top().cursor] !in s.index
    requires Elements(successors) == Successors(g, s.Top().successors[s.Top().cursor])
    ensures s.Top().successors[s.Top().cursor] in Nodes(g)
    ensures Good(g, ReadNext(Visit(s, s.Top().successors[s.Top().cursor], successors), |s.work| - 1), found)
  {
    var i := |s.work| - 1;
    var x := s.Top().successors[s.Top().cursor];
    assert FrameOk(g, s, s.work[i]);
    assert x in Elements(s.Top().successors);
    EnterGood(g, s, found, x, successors);
    var t := Visit(s, x, successors);
    assert t.work[i] == s.work[i];
    assert Witnessed(g, s, s.Top().node);
    VisitShape(g, s, x, successors);
    ReadGood(g, t, found, i);
  }

  /** The low link of an exhausted frame is handed to its parent, if there is one. */
  function HandUp(s: Search): Search
    requires s.work != []
  {
    if |s.work| == 1 then s else Lower(s, s.work[|s.work| - 2].node, s.Low(s.Top().node))
  }

  lemma ParentReaches(g: Graph, s: Search)
    requires Stacked(s) && Framed(g, s) && Descends(g, s) && LowSound(g, s) && |s.work| > 1
    ensures s.work[|s.work| - 2].node in s.onStack
    ensures exists u :: u in s.onStack && s.Index(u) == s.Low(s.Top().node) && Reaches(g, s.work[|s.work| - 2].node, u)
  {
    var parent, node := s.work[|s.work| - 2].node, s.Top().node;
    assert FrameOk(g, s, s.work[|s.work| - 2]) && FrameOk(g, s, s.work[|s.work| - 1]);
    assert Witnessed(g, s, node);
    var u :| u in s.onStack && s.Index(u) == s.Low(node) && Reaches(g, node, u);
    ReachesTransitive(g, parent, node, u);
  }

  lemma HandUpGood(g: Graph, s: Search, found: seq<seq<string>>)
    requires Good(g, s, found) && s.work != []
    ensures Good(g, HandUp(s), found)
  {
    if |s.work| > 1 {
      ParentReaches(g, s);
      LowerKeeps(g, s, s.work[|s.work| - 2].node, s.Low(s.Top().node));
    }
  }

  lemma HandUpLow(g: Graph, s: Search)
    requires Indexed(g, s) && Stacked(s) && Framed(g, s) && s.work != []
    ensures HandUp(s).Low(s.Top().node) == s.Low(s.Top().node)
    ensures |s.work| > 1 ==> HandUp(s).Low(s.work[|s.work| - 2].node) <= s.Low(s.Top().node)
  {
    if |s.work| > 1 {
      assert FrameOk(g, s, s.work[|s.work| - 2]) && FrameOk(g, s, s.work[|s.work| - 1]);
    }
  }

  /** Leaving a node whose component is still open: it is never the root of the search. */
  lemma LeaveGood(g: Graph, s: Search, found: seq<seq<string>>)
    requires Good(g, s, found) && Exhausted(s) && s.Low(s.Top().node) != s.Index(s.Top().node)
    ensures Good(g, Pop(HandUp(s)), found)
  {
    assert LowEnough(HandUp(s)) by {
      LeaveReady(g, s);
    }
    HandUpGood(g, s, found);
    PopKeeps(g, HandUp(s));
  }

  lemma LeaveReady(g: Graph, s: Search)
    requires Inv(g, s) && Exhausted(s) && s.Low(s.Top().node) != s.Index(s.Top().node)
    ensures LowEnough(HandUp(s))
  {
    NotRoot(g, s);
    HandUpLow(g, s);
    StillLow(s);
  }

  lemma StillLow(s: Search)
    requires Exhausted(s) && |s.work| > 1 && s.Low(s.Top().node) < s.Index(s.Top().node)
    requires HandUp(s).Low(s.Top().node) == s.Low(s.Top().node)
    requires HandUp(s).Low(s.work[|s.work| - 2].node) <= s.Low(s.Top().node)
    ensures LowEnough(HandUp(s))
  {
  }

  lemma NotRoot(g: Graph, s: Search)
    requires Inv(g, s) && s.work != [] && s.Low(s.Top().node) != s.Index(s.Top().node)
    ensures |s.work| > 1 && s.Low(s.Top().node) < s.Index(s.Top().node)
  {
    RootIsLowest(g, s);
    assert FrameOk(g, s, s.work[|s.work| - 1]) && Witnessed(g, s, s.Top().node);
  }

  lemma RootIsLowest(g: Graph, s: Search)
    requires Inv(g, s) && s.work != []
    ensures |s.work| == 1 ==> s.Low(s.Top().node) == s.Index(s.Top().node)
  {
    if |s.work| == 1 {
      var root := s.Top().node;
      assert FrameOk(g, s, s.work[0]);
      assert Witnessed(g, s, root);
      var u :| u in s.onStack && s.Index(u) == s.Low(root) && Reaches(g, root, u);
      var i :| 0 <= i < |s.stack| && s.stack[i] == u;
    }
  }

  /** An earlier component still stems from the closed nodes, and is not the new one. */
  lemma EarlierComponent(g: Graph, done: set<string>, root: string, component: seq<string>, c: seq<string>)
    requires done <= Nodes(g) && done !! ClassOf(g, root) && Renders(g, component, root) && StemsFrom(g, done, c)
    ensures c != component && StemsFrom(g, done + ClassOf(g, root), c)
  {
    var v :| v in done && Nontrivial(g, v) && Renders(g, c, v);
    InOwnClass(g, v);
    assert v in Elements(c) && v !in ClassOf(g, root);
    assert v in done + ClassOf(g, root);
  }

  lemma MemberReported(g: Graph, found: seq<seq<string>>, root: string, component: seq<string>, v: string)
    requires root in Nodes(g) && Renders(g, component, root) && v in ClassOf(g, root)
    ensures Reported(g, found + [component], v)
    ensures Nontrivial(g, v) <==> Nontrivial(g, root)
  {
    SameClass(g, root, v);
    assert component in found + [component] && Renders(g, component, v);
  }

  lemma StillReported(g: Graph, found: seq<seq<string>>, after: seq<seq<string>>, v: string)
    requires found <= after && Reported(g, found, v)
    ensures Reported(g, after, v)
  {
    var c :| c in found && Renders(g, c, v);
    assert c in after;
  }

  lemma ReportedWith(g: Graph, done: set<string>, found: seq<seq<string>>, root: string, component: seq<string>,
                     v: string)
    requires Lists(g, done, found) && root in Nodes(g) && Renders(g, component, root)
    requires v in done + ClassOf(g, root) && Nontrivial(g, v)
    ensures Reported(g, if Nontrivial(g, root) then found + [component] else found, v)
  {
    if v in done {
      assert Reported(g, found, v);
      StillReported(g, found, if Nontrivial(g, root) then found + [component] else found, v);
    } else {
      MemberReported(g, found, root, component, v);
    }
  }

  /** What is reported when the members of one class are closed together. */
  lemma ReportClass(g: Graph, done: set<string>, found: seq<seq<string>>, root: string, component: seq<string>)
    requires Lists(g, done, found) && done <= Nodes(g) && root in Nodes(g) && done !! ClassOf(g, root)
    requires Renders(g, component, root)
    ensures Lists(g, done + ClassOf(g, root), if Nontrivial(g, root) then found + [component] else found)
  {
    var members := ClassOf(g, root);
    InOwnClass(g, root);
    forall c | c in found ensures c != component && StemsFrom(g, done + members, c) {
      assert StemsFrom(g, done, c);
      EarlierComponent(g, done, root, component, c);
    }
    forall v | v in done + members && Nontrivial(g, v)
      ensures Reported(g, if Nontrivial(g, root) then found + [component] else found, v)
    {
      ReportedWith(g, done, found, root, component, v);
    }
    if Nontrivial(g, root) {
      assert StemsFrom(g, done + members, component);
      ListsMore(g, done + members, found, component);
    }
  }

  lemma ListsMore(g: Graph, done: set<string>, found: seq<seq<string>>, component: seq<string>)
    requires forall c | c in found :: c != component && StemsFrom(g, done, c)
    requires StemsFrom(g, done, component)
    requires forall i, j :: 0 <= i < j < |found| ==> found[i] != found[j]
    requires forall v | v in done && Nontrivial(g, v) :: Reported(g, found + [component], v)
    ensures Lists(g, done, found + [component])
  {
    assert forall c | c in found + [component] :: c in found || c == component;
  }

  /** Handing up leaves the top node able to close its component. */
  lemma CloseReady(g: Graph, s: Search, p: nat)
    requires Inv(g, s) && Exhausted(s) && s.Low(s.Top().node) == s.Index(s.Top().node)
    requires p < |s.stack| && s.stack[p] == s.Top().node
    ensures ReadyToClose(HandUp(s), p)
  {
    HandUpLow(g, s);
    StillReady(s, p);
  }

  lemma StillReady(s: Search, p: nat)
    requires Exhausted(s) && p < |s.stack| && s.stack[p] == s.Top().node
    requires HandUp(s).Low(s.Top().node) == s.Low(s.Top().node) == s.Index(s.Top().node)
    ensures ReadyToClose(HandUp(s), p)
  {
  }

  ghost predicate ReadyToClose(s: Search, p: nat) {
    && Exhausted(s) && p < |s.stack| && s.stack[p] == s.Top().node
    && s.Low(s.Top().node) == s.Index(s.Top().node)
  }

  /** Closing a component adds its nodes to the closed ones, and its list to the report. */
  lemma CloseReports(g: Graph, s: Search, found: seq<seq<string>>, p: nat, component: seq<string>)
    requires CanClose(g, s, p) && Lists(g, s.Done(), found)
    requires Ascending(StringBefore, component) && Elements(component) == Elements(s.stack[p..])
    ensures Lists(g, Close(s, p).Done(), if |Elements(s.stack[p..])| > 1 then found + [component] else found)
  {
    ClosedIsClass(g, s, p);
    CloseFinished(g, s, p);
    CloseShape(g, s, p);
    ReportClass(g, s.Done(), found, s.Top().node, component);
  }

  lemma CloseGood(g: Graph, s: Search, found: seq<seq<string>>, p: nat, component: seq<string>)
    requires Good(g, s, found) && Exhausted(s) && s.Low(s.Top().node) == s.Index(s.Top().node)
    requires p < |s.stack| && s.stack[p] == s.Top().node
    requires Ascending(StringBefore, component) && Elements(component) == Elements(s.stack[p..])
    ensures Good(g, Close(HandUp(s), p), if |Elements(s.stack[p..])| > 1 then found + [component] else found)
  {
    var t := HandUp(s);
    assert ReadyToClose(t, p) by {
      CloseReady(g, s, p);
    }
    HandUpGood(g, s, found);
    assert t.stack == s.stack;
    CloseKeeps(g, t, p);
    CloseReports(g, t, found, p, component);
  }

  /** The measure of the loop: unindexed nodes, then unread successors, then open frames. */
  ghost predicate Progress(g: Graph, s: Search, t: Search) {
    || s.index.Keys < t.index.Keys <= Nodes(g)
    || (t.index == s.index
        && (Unread(t.work) < Unread(s.work) || (Unread(t.work) == Unread(s.work) && |t.work| < |s.work|)))
  }

  lemma UnreadRead(work: seq<Frame>)
    requires work != [] && work[|work| - 1].cursor < |work[|work| - 1].successors|
    ensures var f := work[|work| - 1];
      Unread(work[|work| - 1 := f.(cursor := f.cursor + 1)]) == Unread(work) - 1
  {
    var f := work[|work| - 1];
    var read := work[|work| - 1 := f.(cursor := f.cursor + 1)];
    assert read[..|work| - 1] == work[..|work| - 1];
  }

  lemma DescendProgress(g: Graph, s: Search, successors: seq<string>)
    requires Indexed(g, s) && s.work != [] && s.Top().cursor < |s.Top().successors|
    requires s.Top().successors[s.Top().cursor] in Nodes(g) && s.Top().successors[s.Top().cursor] !in s.index
    ensures Progress(g, s, ReadNext(Visit(s, s.Top().successors[s.Top().cursor], successors), |s.work| - 1))
  {
    var x := s.Top().successors[s.Top().cursor];
    var t := ReadNext(Visit(s, x, successors), |s.work| - 1);
    assert t.index.Keys == s.index.Keys + {x};
  }

  lemma RevisitProgress(g: Graph, s: Search)
    requires s.work != [] && s.Top().cursor < |s.Top().successors|
    ensures var x := s.Top().successors[s.Top().cursor];
      Progress(g, s, ReadNext(if x in s.onStack then Lower(s, s.Top().node, s.Index(x)) else s, |s.work| - 1))
  {
    UnreadRead(s.work);
  }

  /** The branch of the loop that reads the next successor of the top frame. */
  method ReadSuccessor(g: Graph, s: Search, ghost found: seq<seq<string>>) returns (t: Search)
    requires Good(g, s, found) && s.work != [] && s.Top().cursor < |s.Top().successors|
    ensures Good(g, t, found) && Progress(g, s, t)
  {
    var successor, top := s.Top().successors[s.Top().cursor], |s.work| - 1;
    if successor !in s.index {
      var list := SortNames(Successors(g, successor));
      DescendGood(g, s, found, list);
      DescendProgress(g, s, list);
      t := ReadNext(Visit(s, successor, list), top);
    } else {
      RevisitGood(g, s, found);
      RevisitProgress(g, s);
      t := ReadNext(if successor in s.onStack then Lower(s, s.Top().node, s.Index(successor)) else s, top);
    }
  }

  /** Pop the component stack down to `node`. */
  method PopComponent(stack: seq<string>, node: string) returns (rest: seq<string>, component: seq<string>)
    requires node in stack
    ensures |rest| < |stack| && rest == stack[..|rest|] && stack[|rest|] == node
    ensures Elements(component) == Elements(stack[|rest|..])
    ensures |component| == |stack| - |rest|
  {
    rest, component := stack, [];
    while true
      invariant node in rest
      invariant rest == stack[..|rest|]
      invariant |component| == |stack| - |rest|
      invariant Elements(component) == Elements(stack[|rest|..])
      decreases |rest|
    {
      var member := rest[|rest| - 1];
      assert stack[|rest| - 1..] == [member] + stack[|rest|..];
      assert forall x :: x in component <==> x in Elements(stack[|rest|..]);
      rest := rest[..|rest| - 1];
      component := component + [member];
      if member == node { break; }
    }
  }

  lemma StackDistinct(g: Graph, s: Search, found: seq<seq<string>>, p: nat)
    requires Good(g, s, found) && p <= |s.stack|
    ensures |Elements(s.stack[p..])| == |s.stack| - p
  {
    DistinctCount(s.stack[p..]);
  }

  lemma TopOnStack(g: Graph, s: Search, found: seq<seq<string>>)
    requires Good(g, s, found) && s.work != []
    ensures s.Top().node in s.stack
  {
    assert FrameOk(g, s, s.work[|s.work| - 1]);
  }

  lemma LeaveProgress(g: Graph, s: Search)
    requires Exhausted(s)
    ensures Progress(g, s, Pop(HandUp(s)))
  {
  }

  lemma CloseProgress(g: Graph, s: Search, p: nat)
    requires Exhausted(s) && p <= |s.stack|
    ensures Progress(g, s, Close(HandUp(s), p))
  {
  }

  /** The branch that leaves an exhausted node, closing its component if it is the root of one. */
  method LeaveNode(g: Graph, s: Search, found: seq<seq<string>>) returns (t: Search, found': seq<seq<string>>)
    requires Good(g, s, found) && Exhausted(s)
    ensures Good(g, t, found') && Progress(g, s, t)
  {
    var node := s.Top().node;
    if s.Low(node) != s.Index(node) {
      LeaveGood(g, s, found);
      LeaveProgress(g, s);
      t, found' := Pop(HandUp(s)), found;
    } else {
      TopOnStack(g, s, found);
      var rest, component := PopComponent(s.stack, node);
      var listed := SortNames(Elements(component));
      StackDistinct(g, s, found, |rest|);
      CloseGood(g, s, found, |rest|, listed);
      CloseProgress(g, s, |rest|);
      t := Close(HandUp(s), |rest|);
      found' := if |component| > 1 then found + [listed] else found;
    }
  }

  lemma SearchDone(g: Graph, s: Search, found: seq<seq<string>>)
    requires Good(g, s, found) && s.work == [] && Nodes(g) <= s.index.Keys
    ensures Lists(g, Nodes(g), found)
  {
    assert s.Done() == Nodes(g);
  }

  lemma SearchStart(g: Graph)
    ensures Good(g, Search(map[], map[], {}, [], [], 0), [])
  {
  }

  lemma SortedLists(g: Graph, done: set<string>, found: seq<seq<string>>, sorted: seq<seq<string>>)
    requires Lists(g, done, found) && Elements(sorted) == Elements(found) && Ascending(ListBefore, sorted)
    ensures Lists(g, done, sorted)
  {
    ListOrder();
    forall c ensures c in sorted <==> c in found { assert c in Elements(sorted) <==> c in Elements(found); }
    forall v | v in done && Nontrivial(g, v) ensures Reported(g, sorted, v) {
      assert Reported(g, found, v);
    }
    assert forall c | c in sorted :: StemsFrom(g, done, c);
  }

  /** The loop that works the frames off. */
  method Explore(g: Graph, s: Search, found: seq<seq<string>>) returns (t: Search, found': seq<seq<string>>)
    requires Good(g, s, found)
    ensures Good(g, t, found') && t.work == [] && s.index.Keys <= t.index.Keys
  {
    t, found' := s, found;
    while t.work != []
      invariant Good(g, t, found') && s.index.Keys <= t.index.Keys
      decreases Nodes(g) - t.index.Keys, Unread(t.work), |t.work|
    {
      if t.Top().cursor < |t.Top().successors| {
        t := ReadSuccessor(g, t, found');
      } else {
        t, found' := LeaveNode(g, t, found');
      }
    }
  }

  method Cycles(adjacent: Graph) returns (cycles: seq<seq<string>>)
    ensures Lists(adjacent, Nodes(adjacent), cycles)
    ensures Ascending(ListBefore, cycles)
  {
    var s := Search(map[], map[], {}, [], [], 0);
    var found: seq<seq<string>> := [];
    SearchStart(adjacent);
    var starts := SortNames(Nodes(adjacent));
    for n := 0 to |starts|
      invariant Good(adjacent, s, found) && s.work == []
      invariant forall m :: 0 <= m < n ==> starts[m] in s.index
    {
      var start := starts[n];
      if start in s.index { continue; }
      assert start in Elements(starts);
      var successors := SortNames(Successors(adjacent, start));
      EnterGood(adjacent, s, found, start, successors);
      s, found := Explore(adjacent, Visit(s, start, successors), found);
    }
    assert Nodes(adjacent) <= s.index.Keys by {
      assert forall v | v in Nodes(adjacent) :: v in Elements(starts);
    }
    SearchDone(adjacent, s, found);
    cycles := SortLists(Elements(found));
    SortedLists(adjacent, Nodes(adjacent), found, cycles);
  }

  /** `sorted(found)`; no list occurs twice in `found`. */
  method SortLists(lists: set<seq<string>>) returns (sorted: seq<seq<string>>)
    ensures Elements(sorted) == lists && Ascending(ListBefore, sorted)
  {
    ListOrder();
    sorted := Sorted(ListBefore, lists);
  }

  /** Only one listing of a graph's cycles is sorted: the report is reproducible. */
  lemma CyclesUnique(g: Graph, first: seq<seq<string>>, second: seq<seq<string>>)
    requires Lists(g, Nodes(g), first) && Ascending(ListBefore, first)
    requires Lists(g, Nodes(g), second) && Ascending(ListBefore, second)
    ensures first == second
  {
    SameComponents(g, first, second);
    SameComponents(g, second, first);
    ListOrder();
    AscendingUnique(ListBefore, first, second);
  }

  lemma SameComponents(g: Graph, first: seq<seq<string>>, second: seq<seq<string>>)
    requires Lists(g, Nodes(g), first) && Lists(g, Nodes(g), second)
    ensures Elements(first) <= Elements(second)
  {
    forall c | c in first ensures c in second {
      assert StemsFrom(g, Nodes(g), c);
      var v :| v in Nodes(g) && Nontrivial(g, v) && Renders(g, c, v);
      assert Reported(g, second, v);
      var d :| d in second && Renders(g, d, v);
      StringOrder();
      AscendingUnique(StringBefore, c, d);
    }
  }
}
