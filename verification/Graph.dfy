/** Directed graphs, reachability and strongly connected components, and what `find_cycles` must return. */
module Graph {
  import opened Order

  type Node = string

  /** The mapping handed to `find_cycles`: a node to the nodes it waits on. */
  type Edges = map<Node, set<Node>>

  predicate Edge(e: Edges, x: Node, y: Node) {
    x in e && y in e[x]
  }

  function Nodes(e: Edges): set<Node> {
    e.Keys + set x, y | x in e && y in e[x] :: y
  }

  ghost predicate Path(e: Edges, p: seq<Node>) {
    |p| > 0 && forall i :: 0 <= i < |p| - 1 ==> Edge(e, p[i], p[i+1])
  }

  ghost predicate Connects(e: Edges, p: seq<Node>, x: Node, y: Node) {
    Path(e, p) && p[0] == x && p[|p|-1] == y
  }

  ghost predicate Reach(e: Edges, x: Node, y: Node) {
    exists p :: Connects(e, p, x, y)
  }

  ghost predicate Closed(e: Edges, s: set<Node>) {
    forall x, y :: x in s && Edge(e, x, y) ==> y in s
  }

  ghost predicate Mutual(e: Edges, x: Node, y: Node) {
    Reach(e, x, y) && Reach(e, y, x)
  }

  /** The strongly connected component of `x`. */
  ghost function SccOf(e: Edges, x: Node): set<Node> {
    set y | y in Nodes(e) && Mutual(e, x, y)
  }

  /** A component that is a genuine cycle set: two or more nodes, or a self-loop. */
  ghost predicate Cyclic(e: Edges, c: set<Node>) {
    |c| >= 2 || exists x :: x in c && Edge(e, x, x)
  }

  /** The component of `x` as its sorted list of nodes. */
  ghost function Group(e: Edges, x: Node): (g: seq<Node>)
    ensures |g| == |SccOf(e, x)| && (forall y :: y in g <==> y in SccOf(e, x))
    ensures Sorted(g, NameLe) && NoDup(g)
  {
    NameOrder();
    SortedOf(SccOf(e, x), NameLe)
  }

  /** The cycle sets of the graph. */
  ghost function CycleGroups(e: Edges): set<seq<Node>> {
    set x | x in Nodes(e) && Cyclic(e, SccOf(e, x)) :: Group(e, x)
  }

  /** What `find_cycles` returns. */
  ghost function Cycles(e: Edges): seq<seq<Node>> {
    NamesOrder();
    SortedOf(CycleGroups(e), NamesLe)
  }

  // ---------------------------------------------------------------- reachability

  lemma ReachRefl(e: Edges, x: Node)
    ensures Reach(e, x, x)
  {
    assert Connects(e, [x], x, x);
  }

  lemma ReachEdge(e: Edges, x: Node, y: Node)
    requires Edge(e, x, y)
    ensures Reach(e, x, y)
  {
    assert Connects(e, [x, y], x, y);
  }

  lemma ReachTrans(e: Edges, x: Node, y: Node, z: Node)
    requires Reach(e, x, y) && Reach(e, y, z)
    ensures Reach(e, x, z)
  {
    var p :| Connects(e, p, x, y);
    var q :| Connects(e, q, y, z);
    assert Connects(e, p + q[1..], x, z);
  }

  lemma PathTail(e: Edges, p: seq<Node>)
    requires Path(e, p) && |p| > 1
    ensures Path(e, p[1..])
  {
    var q := p[1..];
    forall i | 0 <= i < |q| - 1 ensures Edge(e, q[i], q[i+1]) { assert Edge(e, p[i+1], p[i+1+1]); }
  }

  lemma {:induction false} ClosedUnderPath(e: Edges, s: set<Node>, p: seq<Node>)
    requires Closed(e, s) && Path(e, p) && p[0] in s
    ensures p[|p|-1] in s
  {
    if |p| > 1 {
      assert Edge(e, p[0], p[1]);
      PathTail(e, p);
      ClosedUnderPath(e, s, p[1..]);
    }
  }

  /** Nothing outside a closed set is reachable from inside it. */
  lemma ClosedReach(e: Edges, s: set<Node>, x: Node, y: Node)
    requires Closed(e, s) && x in s && Reach(e, x, y)
    ensures y in s
  {
    var p :| Connects(e, p, x, y);
    ClosedUnderPath(e, s, p);
  }

  /** A path that leaves its start does so over an edge. */
  lemma FirstStep(e: Edges, x: Node, y: Node)
    requires Reach(e, x, y) && x != y
    ensures exists z :: Edge(e, x, z) && Reach(e, z, y)
  {
    var p :| Connects(e, p, x, y);
    assert Edge(e, p[0], p[1]);
    PathTail(e, p);
    assert Connects(e, p[1..], p[1], y);
  }

  lemma EdgeInNodes(e: Edges, x: Node, y: Node)
    requires Edge(e, x, y)
    ensures x in Nodes(e) && y in Nodes(e)
  {}

  // ---------------------------------------------------------------- components

  /** Components are classes: each contains its node, and two that meet are the same. */
  lemma SccClasses(e: Edges, x: Node, y: Node)
    requires x in Nodes(e) && y in SccOf(e, x)
    ensures x in SccOf(e, x) && SccOf(e, y) == SccOf(e, x)
  {
    ReachRefl(e, x);
    forall z | z in Nodes(e) ensures Mutual(e, x, z) <==> Mutual(e, y, z) {
      if Mutual(e, x, z) { ReachTrans(e, y, x, z); ReachTrans(e, z, x, y); }
      if Mutual(e, y, z) { ReachTrans(e, x, y, z); ReachTrans(e, z, y, x); }
    }
  }

  /** A component qualifies exactly when its nodes lie on a cycle of the graph. */
  lemma CyclicIffOnCycle(e: Edges, x: Node)
    requires x in Nodes(e)
    ensures Cyclic(e, SccOf(e, x)) <==> exists y :: Edge(e, x, y) && Reach(e, y, x)
  {
    var c := SccOf(e, x);
    SccOfSelf(e, x);
    if Cyclic(e, c) {
      if y :| y in c && y != x {
        FirstStep(e, x, y);
        var z :| Edge(e, x, z) && Reach(e, z, y);
        ReachTrans(e, z, y, x);
      } else {
        assert c == {x};
        ReachRefl(e, x);
      }
    }
    if y :| Edge(e, x, y) && Reach(e, y, x) {
      EdgeInNodes(e, x, y);
      ReachEdge(e, x, y);
      assert y in c;
      if y != x { assert {x, y} <= c; CardMono({x, y}, c); }
    }
  }

  lemma GroupOfClass(e: Edges, x: Node, y: Node)
    requires x in Nodes(e) && y in SccOf(e, x)
    ensures Group(e, y) == Group(e, x)
  {
    SccClasses(e, x, y);
    NameOrder();
  }

  lemma SccOfSelf(e: Edges, x: Node)
    requires x in Nodes(e)
    ensures x in SccOf(e, x)
  {
    ReachRefl(e, x);
  }

  lemma InCycles(e: Edges, g: seq<Node>)
    ensures g in Cycles(e) <==> exists x :: x in Nodes(e) && Cyclic(e, SccOf(e, x)) && g == Group(e, x)
  {
    NamesOrder();
    assert g in Cycles(e) <==> g in CycleGroups(e);
  }

  /** Any member of a reported group has that group as its component. */
  lemma GroupOfMember(e: Edges, g: seq<Node>, x: Node)
    requires g in Cycles(e) && x in g
    ensures x in Nodes(e) && Cyclic(e, SccOf(e, x)) && g == Group(e, x)
  {
    InCycles(e, g);
    var w :| w in Nodes(e) && Cyclic(e, SccOf(e, w)) && g == Group(e, w);
    NameOrder();
    SccClasses(e, w, x);
  }

  /** Sorted, sound and maximal: a reported group is non-empty, and is the whole class of each member. */
  lemma CyclesSound(e: Edges, g: seq<Node>, x: Node, y: Node)
    requires g in Cycles(e) && x in g
    ensures Sorted(g, NameLe) && NoDup(g)
    ensures y in g <==> y in Nodes(e) && Mutual(e, x, y)
    ensures |g| >= 2 || (g == [x] && Edge(e, x, x))
  {
    GroupOfMember(e, g, x);
    SccOfSelf(e, x);
    if |g| < 2 { assert g[0] == x; }
  }

  /** Every member of a reported group waits on some member of the same group. */
  lemma CyclesStep(e: Edges, g: seq<Node>, x: Node)
    requires g in Cycles(e) && x in g
    ensures exists y :: y in g && Edge(e, x, y)
  {
    GroupOfMember(e, g, x);
    CyclicIffOnCycle(e, x);
    var y :| Edge(e, x, y) && Reach(e, y, x);
    ReachEdge(e, x, y);
    EdgeInNodes(e, x, y);
    assert y in SccOf(e, x);
  }

  lemma CyclesDisjoint(e: Edges, g: seq<Node>, h: seq<Node>, x: Node)
    requires g in Cycles(e) && h in Cycles(e) && x in g && x in h
    ensures g == h
  {
    GroupOfMember(e, g, x);
    GroupOfMember(e, h, x);
  }

  /** Complete: every node on a cycle of the graph is in a reported group. */
  lemma CyclesComplete(e: Edges, x: Node, y: Node)
    requires Edge(e, x, y) && Reach(e, y, x)
    ensures exists g :: g in Cycles(e) && x in g && y in g
  {
    EdgeInNodes(e, x, y);
    CyclicIffOnCycle(e, x);
    SccOfSelf(e, x);
    ReachEdge(e, x, y);
    InCycles(e, Group(e, x));
    assert Group(e, x) in Cycles(e) && x in Group(e, x) && y in Group(e, x);
  }

  lemma CyclesSorted(e: Edges)
    ensures Sorted(Cycles(e), NamesLe) && NoDup(Cycles(e))
  {
    NamesOrder();
  }
}
