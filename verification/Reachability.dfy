/**
 Directed graphs as the dependency report keeps them (successor sets per node), walks,
 reachability and the mutual-reachability classes that `cycles` is meant to report.
 */
module Reachability {

  type Graph = map<string, set<string>>

  /** `adjacent.get(node, ())`. */
  function Successors(g: Graph, v: string): set<string> {
    if v in g then g[v] else {}
  }

  function Nodes(g: Graph): set<string> {
    g.Keys + set k, v | k in g && v in g[k] :: v
  }

  /** `steps` lists the nodes visited after `a` on a walk that ends at `b`. */
  ghost predicate Walk(g: Graph, steps: seq<string>, a: string, b: string) {
    if steps == [] then a == b
    else steps[0] in Successors(g, a) && Walk(g, steps[1..], steps[0], b)
  }

  ghost predicate Reaches(g: Graph, a: string, b: string) {
    exists steps :: Walk(g, steps, a, b)
  }

  ghost predicate Mutual(g: Graph, a: string, b: string) {
    Reaches(g, a, b) && Reaches(g, b, a)
  }

  /** The strongly connected component of `v`. */
  ghost function ClassOf(g: Graph, v: string): set<string> {
    set u | u in Nodes(g) && Mutual(g, v, u)
  }

  ghost predicate Closed(g: Graph, nodes: set<string>) {
    forall v | v in nodes :: Successors(g, v) <= nodes
  }

  lemma ReachesSelf(g: Graph, a: string)
    ensures Reaches(g, a, a)
  {
    assert Walk(g, [], a, a);
  }

  lemma ReachesSuccessor(g: Graph, a: string, b: string)
    requires b in Successors(g, a)
    ensures Reaches(g, a, b)
  {
    assert Walk(g, [b][1..], b, b);
    assert Walk(g, [b], a, b);
  }

  lemma JoinWalks(g: Graph, p: seq<string>, q: seq<string>, a: string, b: string, c: string)
    requires Walk(g, p, a, b) && Walk(g, q, b, c)
    ensures Walk(g, p + q, a, c)
  {
    if p == [] {
      assert p + q == q;
    } else {
      JoinWalks(g, p[1..], q, p[0], b, c);
      assert (p + q)[1..] == p[1..] + q;
    }
  }

  lemma ReachesTransitive(g: Graph, a: string, b: string, c: string)
    requires Reaches(g, a, b) && Reaches(g, b, c)
    ensures Reaches(g, a, c)
  {
    var p :| Walk(g, p, a, b);
    var q :| Walk(g, q, b, c);
    JoinWalks(g, p, q, a, b, c);
  }

  lemma WalkStaysIn(g: Graph, nodes: set<string>, p: seq<string>, a: string, b: string)
    requires Closed(g, nodes) && a in nodes && Walk(g, p, a, b)
    ensures b in nodes
  {
    if p != [] {
      WalkStaysIn(g, nodes, p[1..], p[0], b);
    }
  }

  lemma ClosedKeepsReach(g: Graph, nodes: set<string>, a: string, b: string)
    requires Closed(g, nodes) && a in nodes && Reaches(g, a, b)
    ensures b in nodes
  {
    var p :| Walk(g, p, a, b);
    WalkStaysIn(g, nodes, p, a, b);
  }

  lemma ReachesNode(g: Graph, a: string, b: string)
    requires a in Nodes(g) && Reaches(g, a, b)
    ensures b in Nodes(g)
  {
    ClosedKeepsReach(g, Nodes(g), a, b);
  }

  /** Classes are equivalence classes: a member has the same class. */
  lemma SameClass(g: Graph, v: string, u: string)
    requires Mutual(g, v, u)
    ensures ClassOf(g, v) == ClassOf(g, u)
  {
    forall w | w in Nodes(g) ensures Mutual(g, v, w) <==> Mutual(g, u, w) {
      if Mutual(g, v, w) { ReachesTransitive(g, u, v, w); ReachesTransitive(g, w, v, u); }
      if Mutual(g, u, w) { ReachesTransitive(g, v, u, w); ReachesTransitive(g, w, u, v); }
    }
  }

  lemma InOwnClass(g: Graph, v: string)
    requires v in Nodes(g)
    ensures v in ClassOf(g, v)
  {
    ReachesSelf(g, v);
  }
}
