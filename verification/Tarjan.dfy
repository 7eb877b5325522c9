/** `find_cycles`: iterative Tarjan with an explicit work stack, proved to return `Graph.Cycles`. */
module Tarjan {
  import opened Order
  import opened Graph

  type Children = map<Node, seq<Node>>

  /** A work frame: a node and how many of its children have been looked at. */
  datatype Frame = Frame(node: Node, next: nat)

  /** The search state: discovery indices, lowlinks, and the component stack. */
  datatype Search = Search(index: map<Node, nat>, low: map<Node, nat>, stack: seq<Node>, counter: nat)

  ghost predicate Adjacent(e: Edges, ch: Children) {
    ch.Keys == Nodes(e) && forall n, y :: n in ch ==> (y in ch[n] <==> Edge(e, n, y))
  }

  // ---------------------------------------------------------------- the invariant

  ghost predicate Gray(w: seq<Frame>, x: Node) {
    exists i :: 0 <= i < |w| && w[i].node == x
  }

  ghost predicate Done(s: Search, x: Node) {
    x in s.index && x !in s.stack
  }

  ghost predicate Numbered(e: Edges, s: Search) {
    && s.low.Keys == s.index.Keys <= Nodes(e)
    && (forall x :: x in s.index ==> s.index[x] < s.counter)
    && (forall i :: 0 <= i < |s.stack| ==> s.stack[i] in s.index)
    && (forall i, j :: 0 <= i < j < |s.stack| ==> s.index[s.stack[i]] < s.index[s.stack[j]])
  }

  /** A node that has left the stack only leads to nodes that have left it too. */
  ghost predicate DoneClosed(e: Edges, s: Search) {
    forall x, y :: Done(s, x) && Edge(e, x, y) ==> Done(s, y)
  }

  /** The frames are the current path: on the stack, in discovery order, each under its parent's last child. */
  ghost predicate Frames(ch: Children, s: Search, w: seq<Frame>) {
    && (forall i :: 0 <= i < |w| ==> w[i].node in s.stack && w[i].node in ch && w[i].next <= |ch[w[i].node]|)
    && (forall i, k :: 0 <= i < |w| && 0 <= k < w[i].next ==> ch[w[i].node][k] in s.index)
    && (forall i, j :: 0 <= i < j < |w| ==> w[i].node in s.index && w[j].node in s.index && s.index[w[i].node] < s.index[w[j].node])
  }

  /** A frame with another above it has looked at a child. */
  ghost predicate Entered(w: seq<Frame>) {
    forall i :: 0 <= i < |w| - 1 ==> w[i].next > 0
  }

  /** A node whose frame is gone has had all its successors discovered. */
  ghost predicate Blackened(e: Edges, s: Search, w: seq<Frame>) {
    forall x, y :: x in s.stack && !Gray(w, x) && Edge(e, x, y) ==> y in s.index
  }

  /** An open node reaches everything above it on the stack. */
  ghost predicate GrayReach(e: Edges, s: Search, w: seq<Frame>)
    requires Numbered(e, s)
  {
    forall i, x :: 0 <= i < |w| && w[i].node in s.index && x in s.stack && s.index[w[i].node] <= s.index[x] ==> Reach(e, w[i].node, x)
  }

  ghost predicate ReachesOlder(e: Edges, s: Search, x: Node)
    requires Numbered(e, s) && x in s.index
  {
    exists y :: y in s.stack && s.index[y] < s.index[x] && Reach(e, x, y)
  }

  /** A finished node still on the stack reaches a strictly older node on the stack. */
  ghost predicate Descends(e: Edges, s: Search, w: seq<Frame>)
    requires Numbered(e, s)
  {
    forall x {:trigger ReachesOlder(e, s, x)} :: x in s.stack && !Gray(w, x) ==> ReachesOlder(e, s, x)
  }

  /** `x` lies in the stretch of the stack that frame `i` answers for. */
  ghost predicate Owned(s: Search, w: seq<Frame>, i: nat, x: Node)
    requires i < |w|
  {
    && x in s.stack && x in s.index && w[i].node in s.index && s.index[w[i].node] <= s.index[x]
    && (i + 1 < |w| ==> w[i+1].node in s.index && s.index[x] < s.index[w[i+1].node])
  }

  ghost predicate Explored(e: Edges, ch: Children, f: Frame, x: Node, y: Node) {
    if x == f.node then f.node in ch && exists k :: 0 <= k < f.next && k < |ch[f.node]| && ch[f.node][k] == y
    else Edge(e, x, y)
  }

  /** Frame `i`'s lowlink is below every explored edge from its stretch back into the stack. */
  ghost predicate Bounded(e: Edges, ch: Children, s: Search, w: seq<Frame>, i: nat)
    requires Numbered(e, s) && i < |w| && w[i].node in s.index
  {
    forall x, y {:trigger Owned(s, w, i, x), Explored(e, ch, w[i], x, y)} ::
      Owned(s, w, i, x) && y in s.stack && Explored(e, ch, w[i], x, y) ==> s.low[w[i].node] <= s.index[y]
  }

  /** Frame `i`'s lowlink is the index of a stack node it reaches. */
  ghost predicate Witnessed(e: Edges, s: Search, x: Node)
    requires Numbered(e, s) && x in s.index
  {
    s.low[x] <= s.index[x] && exists y :: y in s.stack && s.index[y] == s.low[x] && Reach(e, x, y)
  }

  ghost predicate LowLinks(e: Edges, ch: Children, s: Search, w: seq<Frame>)
    requires Numbered(e, s)
  {
    forall i {:trigger Bounded(e, ch, s, w, i)} {:trigger Witnessed(e, s, w[i].node)} ::
      0 <= i < |w| && w[i].node in s.index ==> Bounded(e, ch, s, w, i) && Witnessed(e, s, w[i].node)
  }

  ghost predicate Inv(e: Edges, ch: Children, s: Search, w: seq<Frame>) {
    && Adjacent(e, ch) && Numbered(e, s) && DoneClosed(e, s) && Entered(w) && Frames(ch, s, w)
    && Blackened(e, s, w) && GrayReach(e, s, w) && Descends(e, s, w) && LowLinks(e, ch, s, w)
  }

  /** `g` is the group of a node that has left the stack. */
  ghost predicate Justified(e: Edges, s: Search, g: seq<Node>) {
    exists x :: Done(s, x) && x in Nodes(e) && Cyclic(e, SccOf(e, x)) && g == Group(e, x)
  }

  /** The components emitted so far are those of the nodes that have left the stack. */
  ghost predicate Found(e: Edges, s: Search, sccs: seq<seq<Node>>) {
    && NoDup(sccs)
    && (forall g {:trigger Justified(e, s, g)} :: g in sccs ==> Justified(e, s, g))
    && (forall x :: Done(s, x) && Cyclic(e, SccOf(e, x)) ==> Group(e, x) in sccs)
  }

  // ---------------------------------------------------------------- one lemma per step

  function Visited(s: Search, v: Node): Search {
    Search(s.index[v := s.counter], s.low[v := s.counter], s.stack + [v], s.counter + 1)
  }

  function Advanced(w: seq<Frame>): seq<Frame>
    requires w != []
  {
    w[|w|-1 := Frame(w[|w|-1].node, w[|w|-1].next + 1)]
  }

  function Pushed(w: seq<Frame>, v: Node): seq<Frame>
    requires w != []
  {
    Advanced(w) + [Frame(v, 0)]
  }

  function Lowered(s: Search, v: Node, to: nat): Search
    requires v in s.low
  {
    s.(low := s.low[v := if to < s.low[v] then to else s.low[v]])
  }

  function Scanned(s: Search, u: Node, v: Node): Search
    requires u in s.low && v in s.index
  {
    if v in s.stack then Lowered(s, u, s.index[v]) else s
  }

  /** `v` is the next child the top frame looks at. */
  ghost predicate NextChild(ch: Children, w: seq<Frame>, v: Node) {
    w != [] && var f := w[|w|-1]; f.node in ch && f.next < |ch[f.node]| && ch[f.node][f.next] == v
  }

  lemma NextChildEdge(e: Edges, ch: Children, w: seq<Frame>, v: Node)
    requires Adjacent(e, ch) && NextChild(ch, w, v)
    ensures Edge(e, w[|w|-1].node, v) && v in Nodes(e) && Reach(e, w[|w|-1].node, v)
  {
    var f := w[|w|-1];
    assert v in ch[f.node];
    EdgeInNodes(e, f.node, v);
    ReachEdge(e, f.node, v);
  }

  /** With no open frame the stack is empty: its oldest node would have to reach an older one. */
  lemma EmptyWhenIdle(e: Edges, s: Search)
    requires Numbered(e, s) && Descends(e, s, [])
    ensures s.stack == []
  {
    if s.stack != [] {
      var x := s.stack[0];
      assert x in s.stack && !Gray([], x) && ReachesOlder(e, s, x);
      var y :| y in s.stack && s.index[y] < s.index[x] && Reach(e, x, y);
      assert false;
    }
  }

  lemma LoneFrame(e: Edges, ch: Children, t: Search, v: Node)
    requires Adjacent(e, ch) && Numbered(e, t) && t.stack == [v] && v in ch && v in t.index && t.low[v] == t.index[v]
    ensures var w := [Frame(v, 0)];
            Frames(ch, t, w) && Blackened(e, t, w) && GrayReach(e, t, w) && Descends(e, t, w) && LowLinks(e, ch, t, w)
  {
    var w := [Frame(v, 0)];
    ReachRefl(e, v);
    assert w[0].node == v && v in t.stack;
    assert Bounded(e, ch, t, w, 0) && Witnessed(e, t, v);
  }

  lemma VisitRoot(e: Edges, ch: Children, s: Search, v: Node)
    requires Inv(e, ch, s, []) && v in Nodes(e) && v !in s.index
    ensures Inv(e, ch, Visited(s, v), [Frame(v, 0)])
  {
    hide LowLinks, GrayReach, Blackened, Frames, Descends;
    var t := Visited(s, v);
    EmptyWhenIdle(e, s);
    assert t.stack == [v];
    assert forall x :: Done(s, x) <==> Done(t, x);
    LoneFrame(e, ch, t, v);
  }

  // ---- discovering a child

  lemma VisitNumbered(e: Edges, ch: Children, s: Search, w: seq<Frame>, v: Node)
    requires Adjacent(e, ch) && Numbered(e, s) && DoneClosed(e, s) && NextChild(ch, w, v) && v !in s.index
    ensures Numbered(e, Visited(s, v)) && DoneClosed(e, Visited(s, v))
    ensures forall x :: x in Visited(s, v).stack <==> x in s.stack || x == v
  {
    NextChildEdge(e, ch, w, v);
    assert forall x :: Done(s, x) <==> Done(Visited(s, v), x);
  }

  lemma PushedNodes(w: seq<Frame>, v: Node)
    requires w != []
    ensures forall x :: Gray(Pushed(w, v), x) <==> Gray(w, x) || x == v
    ensures forall i :: 0 <= i < |w| ==> Pushed(w, v)[i].node == w[i].node
  {
    var u := Pushed(w, v);
    forall x ensures Gray(u, x) <==> Gray(w, x) || x == v {
      if Gray(w, x) { var i :| 0 <= i < |w| && w[i].node == x; assert u[i].node == x; }
      if x == v { assert u[|w|].node == x; }
    }
  }

  lemma VisitFrames(e: Edges, ch: Children, s: Search, w: seq<Frame>, v: Node)
    requires Adjacent(e, ch) && Numbered(e, s) && Frames(ch, s, w) && NextChild(ch, w, v) && v !in s.index
    ensures Frames(ch, Visited(s, v), Pushed(w, v))
  {
    var t, u := Visited(s, v), Pushed(w, v);
    NextChildEdge(e, ch, w, v);
    hide Adjacent, Edge, Nodes, Reach;
    forall i | 0 <= i < |u| ensures u[i].node in t.stack && u[i].node in ch && u[i].next <= |ch[u[i].node]| {
      if i < |w| { assert w[i].node in s.stack; } else { assert t.stack[|s.stack|] == v; }
    }
    forall i, k | 0 <= i < |u| && 0 <= k < u[i].next ensures ch[u[i].node][k] in t.index {
      if k < w[i].next { assert ch[w[i].node][k] in s.index; }
    }
  }

  lemma VisitGrayReach(e: Edges, ch: Children, s: Search, w: seq<Frame>, v: Node)
    requires Adjacent(e, ch) && Numbered(e, s) && Frames(ch, s, w) && NextChild(ch, w, v) && v !in s.index
    requires GrayReach(e, s, w) && Numbered(e, Visited(s, v))
    ensures GrayReach(e, Visited(s, v), Pushed(w, v))
  {
    var t, u, top := Visited(s, v), Pushed(w, v), w[|w|-1].node;
    NextChildEdge(e, ch, w, v);
    ReachRefl(e, v);
    hide Adjacent, Edge, Nodes, NextChild, Reach;
    forall i, x | 0 <= i < |u| && u[i].node in t.index && x in t.stack && t.index[u[i].node] <= t.index[x]
      ensures Reach(e, u[i].node, x)
    {
      if i < |w| {
        assert u[i].node == w[i].node && w[i].node in s.stack;
        if x == v {
          assert s.index[w[i].node] <= s.index[top];
          ReachTrans(e, w[i].node, top, v);
        }
      }
    }
  }

  lemma VisitReach(e: Edges, ch: Children, s: Search, w: seq<Frame>, v: Node)
    requires Adjacent(e, ch) && Numbered(e, s) && Frames(ch, s, w) && NextChild(ch, w, v) && v !in s.index
    requires DoneClosed(e, s) && Blackened(e, s, w) && GrayReach(e, s, w) && Descends(e, s, w)
    ensures var t, u := Visited(s, v), Pushed(w, v);
            Numbered(e, t) && Blackened(e, t, u) && GrayReach(e, t, u) && Descends(e, t, u)
  {
    var t, u := Visited(s, v), Pushed(w, v);
    VisitNumbered(e, ch, s, w, v);
    PushedNodes(w, v);
    VisitGrayReach(e, ch, s, w, v);
    hide GrayReach, Adjacent, NextChild, Frames, Gray, Reach, DoneClosed;
    forall x | x in t.stack && !Gray(u, x) ensures ReachesOlder(e, t, x) {
      assert ReachesOlder(e, s, x);
      var y :| y in s.stack && s.index[y] < s.index[x] && Reach(e, x, y);
      assert y in t.stack && t.index[y] < t.index[x];
    }
  }

  lemma VisitBounded(e: Edges, ch: Children, s: Search, w: seq<Frame>, v: Node, i: nat)
    requires Numbered(e, s) && Frames(ch, s, w) && NextChild(ch, w, v) && v !in s.index && i < |w|
    requires Numbered(e, Visited(s, v)) && Bounded(e, ch, s, w, i) && Witnessed(e, s, w[i].node)
    ensures Bounded(e, ch, Visited(s, v), Pushed(w, v), i)
  {
    var t, u := Visited(s, v), Pushed(w, v);
    assert u[i].node == w[i].node && u[i+1].node == if i + 1 < |w| then w[i+1].node else v;
    forall x, y | Owned(t, u, i, x) && y in t.stack && Explored(e, ch, u[i], x, y)
      ensures t.low[u[i].node] <= t.index[y]
    {
      if y != v {
        assert Owned(s, w, i, x);
        if x == w[i].node {
          var k :| 0 <= k < u[i].next && k < |ch[x]| && ch[x][k] == y;
          assert k < w[i].next;
        }
        assert Explored(e, ch, w[i], x, y);
      }
    }
  }

  lemma VisitLow(e: Edges, ch: Children, s: Search, w: seq<Frame>, v: Node)
    requires Adjacent(e, ch) && Numbered(e, s) && Frames(ch, s, w) && NextChild(ch, w, v) && v !in s.index
    requires DoneClosed(e, s) && LowLinks(e, ch, s, w)
    ensures Numbered(e, Visited(s, v)) && LowLinks(e, ch, Visited(s, v), Pushed(w, v))
  {
    hide Adjacent, DoneClosed, Reach, Nodes, Bounded, Witnessed;
    var t, u := Visited(s, v), Pushed(w, v);
    VisitNumbered(e, ch, s, w, v);
    forall i | 0 <= i < |u| && u[i].node in t.index ensures Bounded(e, ch, t, u, i) && Witnessed(e, t, u[i].node) {
      if i < |w| {
        assert u[i].node == w[i].node && w[i].node in s.stack && w[i].node in s.index;
        VisitBounded(e, ch, s, w, v, i);
        VisitWitnessed(e, s, v, w[i].node);
      } else {
        NewFrameLow(e, ch, s, w, v);
      }
    }
  }

  lemma VisitWitnessed(e: Edges, s: Search, v: Node, x: Node)
    requires Numbered(e, s) && Numbered(e, Visited(s, v)) && x in s.index && v !in s.index && Witnessed(e, s, x)
    ensures Witnessed(e, Visited(s, v), x)
  {
    hide Reach, Nodes;
    var y :| y in s.stack && s.index[y] == s.low[x] && Reach(e, x, y);
    assert y in Visited(s, v).stack;
  }

  lemma NewFrameLow(e: Edges, ch: Children, s: Search, w: seq<Frame>, v: Node)
    requires w != [] && Numbered(e, Visited(s, v))
    ensures var t, u := Visited(s, v), Pushed(w, v); u[|w|].node == v && v in t.index && Bounded(e, ch, t, u, |w|) && Witnessed(e, t, v)
  {
    ReachRefl(e, v);
    hide Reach, Nodes;
    var t := Visited(s, v);
    assert t.stack[|s.stack|] == v;
  }

  lemma VisitChild(e: Edges, ch: Children, s: Search, w: seq<Frame>, v: Node)
    requires Inv(e, ch, s, w) && NextChild(ch, w, v) && v !in s.index
    ensures Inv(e, ch, Visited(s, v), Pushed(w, v))
  {
    VisitNumbered(e, ch, s, w, v);
    VisitFrames(e, ch, s, w, v);
    VisitReach(e, ch, s, w, v);
    VisitLow(e, ch, s, w, v);
  }

  // ---- looking at a child already discovered

  lemma AdvancedNodes(w: seq<Frame>)
    requires w != []
    ensures forall i :: 0 <= i < |w| ==> Advanced(w)[i].node == w[i].node
    ensures forall x :: Gray(Advanced(w), x) <==> Gray(w, x)
  {
    var u := Advanced(w);
    forall x ensures Gray(u, x) <==> Gray(w, x) {
      if Gray(w, x) { var i :| 0 <= i < |w| && w[i].node == x; assert u[i].node == x; }
    }
  }

  lemma ScanShape(e: Edges, ch: Children, s: Search, w: seq<Frame>, v: Node)
    requires Adjacent(e, ch) && Numbered(e, s) && DoneClosed(e, s) && Frames(ch, s, w) && NextChild(ch, w, v) && v in s.index
    ensures var t, u := Scanned(s, w[|w|-1].node, v), Advanced(w);
            && Numbered(e, t) && DoneClosed(e, t) && Frames(ch, t, u)
            && (forall i :: 0 <= i < |w| ==> u[i].node == w[i].node)
            && (forall x :: Gray(u, x) <==> Gray(w, x))
  {
    var t, u := Scanned(s, w[|w|-1].node, v), Advanced(w);
    AdvancedNodes(w);
    hide Adjacent;
    assert forall x :: Done(s, x) <==> Done(t, x);
    forall i, k | 0 <= i < |u| && 0 <= k < u[i].next ensures ch[u[i].node][k] in t.index {
      if k < w[i].next { assert ch[w[i].node][k] in s.index; }
    }
  }

  lemma ScanBounded(e: Edges, ch: Children, s: Search, w: seq<Frame>, v: Node, i: nat)
    requires Numbered(e, s) && Frames(ch, s, w) && NextChild(ch, w, v) && v in s.index && i < |w|
    requires Numbered(e, Scanned(s, w[|w|-1].node, v)) && Bounded(e, ch, s, w, i)
    ensures Bounded(e, ch, Scanned(s, w[|w|-1].node, v), Advanced(w), i)
  {
    hide Nodes, Edge, Reach;
    var n := |w| - 1;
    var t, u := Scanned(s, w[n].node, v), Advanced(w);
    assert u[i].node == w[i].node && (i < n ==> u[i] == w[i] && u[i+1].node == w[i+1].node);
    forall x, y | Owned(t, u, i, x) && y in t.stack && Explored(e, ch, u[i], x, y)
      ensures t.low[u[i].node] <= t.index[y]
    {
      assert Owned(s, w, i, x);
      if !(i == n && y == v) { ExploredBefore(e, ch, w, v, i, x, y); }
    }
  }

  lemma ExploredBefore(e: Edges, ch: Children, w: seq<Frame>, v: Node, i: nat, x: Node, y: Node)
    requires NextChild(ch, w, v) && i < |w| && Explored(e, ch, Advanced(w)[i], x, y) && !(i == |w| - 1 && y == v)
    ensures Explored(e, ch, w[i], x, y)
  {
    var u := Advanced(w);
    if i == |w| - 1 && x == w[i].node {
      var k :| 0 <= k < u[i].next && k < |ch[x]| && ch[x][k] == y;
      assert k < w[i].next;
    }
  }

  lemma ScanLow(e: Edges, ch: Children, s: Search, w: seq<Frame>, v: Node)
    requires Adjacent(e, ch) && Numbered(e, s) && Frames(ch, s, w) && NextChild(ch, w, v) && v in s.index
    requires DoneClosed(e, s) && LowLinks(e, ch, s, w)
    ensures var t, u := Scanned(s, w[|w|-1].node, v), Advanced(w);
            Numbered(e, t) && LowLinks(e, ch, t, u)
  {
    hide Bounded, Adjacent, DoneClosed, Nodes;
    var n := |w| - 1;
    var top := w[n].node;
    var t, u := Scanned(s, top, v), Advanced(w);
    NextChildEdge(e, ch, w, v);
    forall i | 0 <= i < |u| && u[i].node in t.index ensures Bounded(e, ch, t, u, i) && Witnessed(e, t, u[i].node) {
      assert u[i].node == w[i].node && (i < n ==> w[i].node != top);
      ScanBounded(e, ch, s, w, v, i);
      assert Witnessed(e, s, w[i].node);
      var y :| y in s.stack && s.index[y] == s.low[w[i].node] && Reach(e, w[i].node, y);
      assert t.low[u[i].node] == s.low[w[i].node] || (i == n && v in t.stack && t.index[v] == t.low[top]);
    }
  }

  lemma ScanReach(e: Edges, s: Search, t: Search, w: seq<Frame>, u: seq<Frame>)
    requires Numbered(e, s) && Numbered(e, t) && t.index == s.index && t.stack == s.stack && |u| == |w|
    requires forall i :: 0 <= i < |w| ==> u[i].node == w[i].node
    requires forall x :: Gray(u, x) <==> Gray(w, x)
    requires Blackened(e, s, w) && GrayReach(e, s, w) && Descends(e, s, w)
    ensures Blackened(e, t, u) && GrayReach(e, t, u) && Descends(e, t, u)
  {
    forall x | x in t.stack && !Gray(u, x) ensures ReachesOlder(e, t, x) {
      assert ReachesOlder(e, s, x);
    }
  }

  /** Looking at a discovered child: its index lowers the lowlink when it is on the stack. */
  lemma ScanChild(e: Edges, ch: Children, s: Search, w: seq<Frame>, v: Node)
    requires Inv(e, ch, s, w) && NextChild(ch, w, v) && v in s.index
    ensures Inv(e, ch, Scanned(s, w[|w|-1].node, v), Advanced(w))
  {
    ScanShape(e, ch, s, w, v);
    ScanLow(e, ch, s, w, v);
    ScanReach(e, s, Scanned(s, w[|w|-1].node, v), w, Advanced(w));
  }

  // ---- closing the top frame

  /** The top frame has looked at all its children. */
  ghost predicate Finished(ch: Children, w: seq<Frame>) {
    w != [] && var f := w[|w|-1]; f.node in ch && f.next == |ch[f.node]|
  }

  lemma FinishedSuccessors(e: Edges, ch: Children, s: Search, w: seq<Frame>, x: Node, y: Node)
    requires Adjacent(e, ch) && Numbered(e, s) && Frames(ch, s, w) && Blackened(e, s, w) && Finished(ch, w)
    requires x in s.stack && s.index[w[|w|-1].node] <= s.index[x] && Edge(e, x, y)
    ensures y in s.index && Owned(s, w, |w|-1, x) && Explored(e, ch, w[|w|-1], x, y)
  {
    var n := |w| - 1;
    if x == w[n].node {
      var k :| 0 <= k < |ch[x]| && ch[x][k] == y;
      assert ch[w[n].node][k] in s.index;
    }
  }

  /** The stack from the top frame's node upwards. */
  ghost function Above(s: Search, v: Node): set<Node>
    requires v in s.index
  {
    set x | x in s.stack && x in s.index && s.index[v] <= s.index[x]
  }

  ghost function Settled(s: Search, v: Node): set<Node>
    requires v in s.index
  {
    Above(s, v) + set x | x in s.index && x !in s.stack
  }

  ghost predicate Root(e: Edges, ch: Children, s: Search, w: seq<Frame>) {
    && Inv(e, ch, s, w) && Finished(ch, w)
    && var v := w[|w|-1].node; s.low[v] == s.index[v]
  }

  lemma SettledClosed(e: Edges, ch: Children, s: Search, w: seq<Frame>)
    requires Root(e, ch, s, w)
    ensures Closed(e, Settled(s, w[|w|-1].node))
  {
    var v := w[|w|-1].node;
    var n := |w| - 1;
    assert Bounded(e, ch, s, w, n);
    forall x, y | x in Settled(s, v) && Edge(e, x, y) ensures y in Settled(s, v) {
      if x in s.stack {
        FinishedSuccessors(e, ch, s, w, x, y);
      } else {
        assert Done(s, x) && Done(s, y);
      }
    }
  }

  /** Everything at or above a root on the stack reaches it: a finished node keeps reaching older ones. */
  lemma {:induction false} AboveReachesRoot(e: Edges, ch: Children, s: Search, w: seq<Frame>, x: Node)
    requires Root(e, ch, s, w) && x in Above(s, w[|w|-1].node)
    ensures Reach(e, x, w[|w|-1].node)
    decreases s.index[x]
  {
    var v := w[|w|-1].node;
    if Gray(w, x) {
      var i :| 0 <= i < |w| && w[i].node == x;
      assert i == |w| - 1;
      ReachRefl(e, v);
    } else {
      assert ReachesOlder(e, s, x);
      var y :| y in s.stack && s.index[y] < s.index[x] && Reach(e, x, y);
      SettledClosed(e, ch, s, w);
      ClosedReach(e, Settled(s, v), x, y);
      AboveReachesRoot(e, ch, s, w, y);
      ReachTrans(e, x, y, v);
    }
  }

  lemma DoneReach(e: Edges, s: Search, x: Node, y: Node)
    requires DoneClosed(e, s) && Done(s, x) && Reach(e, x, y)
    ensures Done(s, y)
  {
    var d := set z | z in s.index && z !in s.stack;
    forall a, b | a in d && Edge(e, a, b) ensures b in d { assert Done(s, a) && Done(s, b); }
    ClosedReach(e, d, x, y);
  }

  /** At a root, the stack from its node upwards is exactly its strongly connected component. */
  lemma RootComponent(e: Edges, ch: Children, s: Search, w: seq<Frame>)
    requires Root(e, ch, s, w)
    ensures Above(s, w[|w|-1].node) == SccOf(e, w[|w|-1].node)
  {
    var v := w[|w|-1].node;
    forall x | x in Above(s, v) ensures x in SccOf(e, v) {
      AboveReachesRoot(e, ch, s, w, x);
      assert Reach(e, w[|w|-1].node, x);
    }
    forall x | x in SccOf(e, v) ensures x in Above(s, v) {
      SettledClosed(e, ch, s, w);
      ClosedReach(e, Settled(s, v), v, x);
      if Done(s, x) {
        DoneReach(e, s, x, v);
      }
    }
  }

  /** Popping a component: the stack is cut below the root and the frame goes. */
  function Cut(s: Search, k: nat): Search
    requires k <= |s.stack|
  {
    s.(stack := s.stack[..k])
  }

  lemma CutShape(e: Edges, ch: Children, s: Search, w: seq<Frame>, k: nat)
    requires Root(e, ch, s, w) && k < |s.stack| && s.stack[k] == w[|w|-1].node
    ensures Numbered(e, Cut(s, k))
    ensures forall x :: x in s.stack[k..] <==> x in Above(s, w[|w|-1].node)
    ensures forall x :: x in s.stack[..k] <==> x in s.stack && x !in Above(s, w[|w|-1].node)
  {
    hide LowLinks, Blackened, GrayReach, Descends, DoneClosed, Adjacent, Frames;
    assert w[|w|-1].node in s.index by { assert s.stack[k] in s.index; }
    var v := w[|w|-1].node;
    forall x | x in s.stack[k..] ensures x in Above(s, v) {
      var i :| k <= i < |s.stack| && s.stack[i] == x;
      assert s.index[s.stack[k]] <= s.index[s.stack[i]];
    }
    forall x | x in s.stack[..k] ensures x in s.stack && x !in Above(s, v) {
      var i :| 0 <= i < k && s.stack[i] == x;
    }
    forall x | x in s.stack ensures x in s.stack[..k] || x in s.stack[k..] {
      assert s.stack == s.stack[..k] + s.stack[k..];
    }
  }

  lemma CutDone(e: Edges, ch: Children, s: Search, w: seq<Frame>, k: nat)
    requires Root(e, ch, s, w) && k < |s.stack| && s.stack[k] == w[|w|-1].node
    ensures DoneClosed(e, Cut(s, k))
    ensures forall x :: Done(Cut(s, k), x) <==> Done(s, x) || x in Above(s, w[|w|-1].node)
  {
    var v, t := w[|w|-1].node, Cut(s, k);
    CutShape(e, ch, s, w, k);
    SettledClosed(e, ch, s, w);
    assert forall x :: Done(t, x) <==> x in Settled(s, v);
  }

  lemma CutFrames(e: Edges, ch: Children, s: Search, w: seq<Frame>, k: nat)
    requires Root(e, ch, s, w) && k < |s.stack| && s.stack[k] == w[|w|-1].node
    ensures Frames(ch, Cut(s, k), w[..|w|-1])
  {
    hide LowLinks, Blackened, GrayReach, Descends, DoneClosed, Adjacent;
    var v, u := w[|w|-1].node, w[..|w|-1];
    CutShape(e, ch, s, w, k);
    forall i | 0 <= i < |u| ensures u[i].node in s.stack[..k] {
      assert u[i] == w[i] && w[i].node in s.stack;
      assert s.index[w[i].node] < s.index[v];
    }
  }

  lemma CutReach(e: Edges, ch: Children, s: Search, w: seq<Frame>, k: nat)
    requires Root(e, ch, s, w) && k < |s.stack| && s.stack[k] == w[|w|-1].node
    ensures var t, u := Cut(s, k), w[..|w|-1];
            Numbered(e, t) && Blackened(e, t, u) && GrayReach(e, t, u) && Descends(e, t, u)
  {
    hide LowLinks, DoneClosed, Adjacent, Frames, Reach, Edge;
    var v, t, u := w[|w|-1].node, Cut(s, k), w[..|w|-1];
    CutShape(e, ch, s, w, k);
    forall x | x in t.stack && Gray(w, x) ensures Gray(u, x) {
      var i :| 0 <= i < |w| && w[i].node == x;
      assert u[i].node == x;
    }
    forall i, x | 0 <= i < |u| && u[i].node in s.index && x in t.stack && s.index[u[i].node] <= s.index[x] ensures Reach(e, u[i].node, x) {
      assert w[i].node == u[i].node && x in s.stack;
    }
    forall x | x in t.stack && !Gray(u, x) ensures ReachesOlder(e, t, x) {
      assert ReachesOlder(e, s, x);
      var y :| y in s.stack && s.index[y] < s.index[x] && Reach(e, x, y);
      assert y in t.stack;
    }
  }

  lemma CutBounded(e: Edges, ch: Children, s: Search, w: seq<Frame>, k: nat, i: nat)
    requires Numbered(e, s) && k < |s.stack| && Numbered(e, Cut(s, k)) && i < |w| - 1
    requires s.stack[k] == w[|w|-1].node && w[i].node in s.index && Bounded(e, ch, s, w, i)
    ensures Bounded(e, ch, Cut(s, k), w[..|w|-1], i)
  {
    var t, u := Cut(s, k), w[..|w|-1];
    assert u[i] == w[i];
    forall x, y | Owned(t, u, i, x) && y in t.stack && Explored(e, ch, u[i], x, y) ensures t.low[u[i].node] <= t.index[y] {
      assert x in s.stack && y in s.stack && s.index[x] < s.index[s.stack[k]];
      assert Owned(s, w, i, x);
      assert Explored(e, ch, w[i], x, y);
    }
  }

  lemma CutLow(e: Edges, ch: Children, s: Search, w: seq<Frame>, k: nat)
    requires Root(e, ch, s, w) && k < |s.stack| && s.stack[k] == w[|w|-1].node
    ensures Numbered(e, Cut(s, k)) && LowLinks(e, ch, Cut(s, k), w[..|w|-1])
  {
    hide Blackened, GrayReach, Descends, DoneClosed, Adjacent, Reach, Edge;
    var v, t, u := w[|w|-1].node, Cut(s, k), w[..|w|-1];
    CutShape(e, ch, s, w, k);
    forall i | 0 <= i < |u| && u[i].node in t.index ensures Bounded(e, ch, t, u, i) && Witnessed(e, t, u[i].node) {
      assert u[i] == w[i] && s.index[w[i].node] < s.index[v];
      assert Bounded(e, ch, s, w, i) && Witnessed(e, s, w[i].node);
      CutBounded(e, ch, s, w, k, i);
      var y :| y in s.stack && s.index[y] == s.low[w[i].node] && Reach(e, w[i].node, y);
      assert y in t.stack;
    }
  }

  /** A finished root gives up its component, which is emitted when it is a genuine cycle set. */
  lemma CloseRoot(e: Edges, ch: Children, s: Search, w: seq<Frame>, k: nat, sccs: seq<seq<Node>>)
    requires Root(e, ch, s, w) && k < |s.stack| && s.stack[k] == w[|w|-1].node && Found(e, s, sccs)
    ensures Inv(e, ch, Cut(s, k), w[..|w|-1])
    ensures forall x :: x in s.stack[k..] <==> x in SccOf(e, w[|w|-1].node)
    ensures Found(e, Cut(s, k), Emitted(e, w[|w|-1].node, sccs))
  {
    var v, t := w[|w|-1].node, Cut(s, k);
    RootComponent(e, ch, s, w);
    CutShape(e, ch, s, w, k);
    CutDone(e, ch, s, w, k);
    CutFrames(e, ch, s, w, k);
    CutReach(e, ch, s, w, k);
    CutLow(e, ch, s, w, k);
    CloseFound(e, s, t, v, sccs);
  }

  /** A component still on the stack has not been emitted. */
  lemma NotYetFound(e: Edges, s: Search, v: Node, sccs: seq<seq<Node>>)
    requires v in Nodes(e) && !Done(s, v) && DoneClosed(e, s) && Found(e, s, sccs)
    ensures Group(e, v) !in sccs
  {
    if Group(e, v) in sccs {
      assert Justified(e, s, Group(e, v));
      var x :| Done(s, x) && x in Nodes(e) && Cyclic(e, SccOf(e, x)) && Group(e, v) == Group(e, x);
      SccOfSelf(e, v);
      assert v in Group(e, v);
      DoneReach(e, s, x, v);
    }
  }

  ghost function Emitted(e: Edges, v: Node, sccs: seq<seq<Node>>): seq<seq<Node>> {
    if Cyclic(e, SccOf(e, v)) then sccs + [Group(e, v)] else sccs
  }

  lemma EmittedJustified(e: Edges, s: Search, t: Search, v: Node, sccs: seq<seq<Node>>, g: seq<Node>)
    requires v in Nodes(e) && Found(e, s, sccs) && g in Emitted(e, v, sccs)
    requires forall x :: Done(t, x) <==> Done(s, x) || x in SccOf(e, v)
    ensures Justified(e, t, g)
  {
    if g in sccs {
      assert Justified(e, s, g);
    } else {
      SccOfSelf(e, v);
      assert Done(t, v);
    }
  }

  lemma EmittedComplete(e: Edges, s: Search, v: Node, sccs: seq<seq<Node>>, x: Node)
    requires v in Nodes(e) && Found(e, s, sccs) && (Done(s, x) || x in SccOf(e, v)) && Cyclic(e, SccOf(e, x))
    ensures Group(e, x) in Emitted(e, v, sccs)
  {
    if x in SccOf(e, v) {
      SccClasses(e, v, x);
      GroupOfClass(e, v, x);
      assert Group(e, v) in Emitted(e, v, sccs);
    }
  }

  lemma CloseFound(e: Edges, s: Search, t: Search, v: Node, sccs: seq<seq<Node>>)
    requires v in Nodes(e) && !Done(s, v) && DoneClosed(e, s) && Found(e, s, sccs)
    requires forall x :: Done(t, x) <==> Done(s, x) || x in SccOf(e, v)
    ensures Found(e, t, Emitted(e, v, sccs))
  {
    NotYetFound(e, s, v, sccs);
    forall g | g in Emitted(e, v, sccs) ensures Justified(e, t, g) { EmittedJustified(e, s, t, v, sccs, g); }
    forall x | Done(t, x) && Cyclic(e, SccOf(e, x)) ensures Group(e, x) in Emitted(e, v, sccs) {
      EmittedComplete(e, s, v, sccs, x);
    }
  }

  // ---- folding the top frame into its parent

  lemma BottomIsOldest(e: Edges, s: Search)
    requires Numbered(e, s) && s.stack != []
    ensures forall y :: y in s.stack ==> s.index[s.stack[0]] <= s.index[y]
    ensures !ReachesOlder(e, s, s.stack[0])
  {}

  /** The lowest open frame is always a root: nothing on the stack is older than it. */
  lemma LoneFrameIsRoot(e: Edges, ch: Children, s: Search, w: seq<Frame>)
    requires Inv(e, ch, s, w) && |w| == 1
    ensures s.low[w[0].node] == s.index[w[0].node]
  {
    var v := w[0].node;
    BottomIsOldest(e, s);
    assert Gray(w, s.stack[0]);
    assert Witnessed(e, s, w[0].node);
    var y :| y in s.stack && s.index[y] == s.low[v] && Reach(e, v, y);
  }

  /** The finished top frame is not a root, and hands its lowlink to its parent. */
  ghost predicate Subordinate(e: Edges, ch: Children, s: Search, w: seq<Frame>) {
    && Inv(e, ch, s, w) && Finished(ch, w) && |w| >= 2
    && var v := w[|w|-1].node; s.low[v] < s.index[v]
  }

  function Merged(s: Search, w: seq<Frame>): Search
    requires |w| >= 2 && w[|w|-1].node in s.low && w[|w|-2].node in s.low
  {
    Lowered(s, w[|w|-2].node, s.low[w[|w|-1].node])
  }

  lemma PoppedNodes(ch: Children, s: Search, w: seq<Frame>)
    requires w != [] && Frames(ch, s, w) && forall i :: 0 <= i < |w| ==> w[i].node in s.index
    ensures forall x :: Gray(w[..|w|-1], x) <==> Gray(w, x) && x != w[|w|-1].node
  {
    var v, u := w[|w|-1].node, w[..|w|-1];
    forall x ensures Gray(u, x) <==> Gray(w, x) && x != v {
      if Gray(w, x) && x != v { var i :| 0 <= i < |w| && w[i].node == x; assert u[i].node == x; }
      if Gray(u, x) { var i :| 0 <= i < |u| && u[i].node == x; assert w[i].node == x; }
    }
  }

  lemma MergeShape(e: Edges, ch: Children, s: Search, w: seq<Frame>)
    requires Subordinate(e, ch, s, w)
    ensures var v, t, u := w[|w|-1].node, Merged(s, w), w[..|w|-1];
            && Numbered(e, t) && DoneClosed(e, t) && Frames(ch, t, u)
            && (forall x :: Done(s, x) <==> Done(t, x))
            && (forall x :: Gray(u, x) <==> Gray(w, x) && x != v)
  {
    hide Blackened, GrayReach, Descends, LowLinks;
    assert forall i :: 0 <= i < |w| ==> w[i].node in s.stack;
    PoppedNodes(ch, s, w);
    assert forall x :: Done(s, x) <==> Done(Merged(s, w), x);
  }

  lemma MergeReach(e: Edges, ch: Children, s: Search, w: seq<Frame>)
    requires Subordinate(e, ch, s, w)
    ensures var t, u := Merged(s, w), w[..|w|-1];
            Numbered(e, t) && Blackened(e, t, u) && GrayReach(e, t, u) && Descends(e, t, u)
  {
    var v, t, u := w[|w|-1].node, Merged(s, w), w[..|w|-1];
    MergeShape(e, ch, s, w);
    forall x, y | x in t.stack && !Gray(u, x) && Edge(e, x, y) ensures y in t.index {
      if x == v { FinishedSuccessors(e, ch, s, w, x, y); }
    }
    forall i, x | 0 <= i < |u| && x in t.stack && t.index[u[i].node] <= t.index[x] ensures Reach(e, u[i].node, x) {
      assert w[i].node == u[i].node;
    }
    forall x | x in t.stack && !Gray(u, x) ensures ReachesOlder(e, t, x) {
      if x == v {
        assert Witnessed(e, s, w[|w|-1].node);
      } else {
        assert ReachesOlder(e, s, x);
      }
    }
  }

  lemma MergeBounded(e: Edges, ch: Children, s: Search, w: seq<Frame>, x: Node, y: Node)
    requires Subordinate(e, ch, s, w) && y in s.stack
    requires var m := |w| - 2; Owned(Merged(s, w), w[..|w|-1], m, x) && Explored(e, ch, w[m], x, y)
    ensures Merged(s, w).low[w[|w|-2].node] <= s.index[y]
  {
    var n, m := |w| - 1, |w| - 2;
    if s.index[x] < s.index[w[n].node] {
      assert Bounded(e, ch, s, w, m);
      assert Owned(s, w, m, x);
    } else {
      assert Bounded(e, ch, s, w, n);
      FinishedSuccessors(e, ch, s, w, x, y);
    }
  }

  lemma MergeWitnessed(e: Edges, ch: Children, s: Search, w: seq<Frame>)
    requires Subordinate(e, ch, s, w) && Numbered(e, Merged(s, w))
    ensures Witnessed(e, Merged(s, w), w[|w|-2].node)
  {
    hide Reach, Nodes, Bounded, Blackened, Descends, Adjacent, DoneClosed, Witnessed;
    var n, m := |w| - 1, |w| - 2;
    assert Witnessed(e, s, w[n].node) && Witnessed(e, s, w[m].node);
    assert Reach(e, w[m].node, w[n].node);
    hide Inv, Finished;
    MergedWitness(e, s, Merged(s, w), w[m].node, w[n].node);
  }

  lemma MergedWitness(e: Edges, s: Search, t: Search, p: Node, v: Node)
    requires Numbered(e, s) && Numbered(e, t) && p in s.index && v in s.index && t == Lowered(s, p, s.low[v])
    requires Witnessed(e, s, p) && Witnessed(e, s, v) && Reach(e, p, v)
    ensures Witnessed(e, t, p)
  {
    hide Reach, Nodes;
    var y :| y in s.stack && s.index[y] == s.low[v] && Reach(e, v, y);
    var z :| z in s.stack && s.index[z] == s.low[p] && Reach(e, p, z);
    ReachTrans(e, p, v, y);
    assert t.index[if s.low[v] < s.low[p] then y else z] == t.low[p];
  }

  lemma MergeLow(e: Edges, ch: Children, s: Search, w: seq<Frame>)
    requires Subordinate(e, ch, s, w)
    ensures Numbered(e, Merged(s, w)) && LowLinks(e, ch, Merged(s, w), w[..|w|-1])
  {
    var t, u := Merged(s, w), w[..|w|-1];
    MergeShape(e, ch, s, w);
    MergeWitnessed(e, ch, s, w);
    forall i | 0 <= i < |u| && u[i].node in t.index ensures Bounded(e, ch, t, u, i) && Witnessed(e, t, u[i].node) {
      if i < |u| - 1 {
        assert u[i] == w[i] && u[i+1] == w[i+1] && w[i].node != w[|w|-2].node;
        assert Bounded(e, ch, s, w, i) && Witnessed(e, s, w[i].node);
        forall x, y | Owned(t, u, i, x) && y in t.stack && Explored(e, ch, u[i], x, y) ensures t.low[u[i].node] <= t.index[y] {
          assert Owned(s, w, i, x) && Explored(e, ch, w[i], x, y);
        }
      } else {
        assert u[i] == w[i];
        forall x, y | Owned(t, u, i, x) && y in t.stack && Explored(e, ch, u[i], x, y) ensures t.low[u[i].node] <= t.index[y] {
          MergeBounded(e, ch, s, w, x, y);
        }
      }
    }
  }

  // ---------------------------------------------------------------- the algorithm

  function ChildrenOf(e: Edges): (ch: Children)
    ensures Adjacent(e, ch)
  {
    NameOrder();
    map n | n in Nodes(e) :: if n in e then SortedOf(e[n], NameLe) else []
  }

  /** The frame just pushed is still to be discovered, over the frames `b` below it. */
  ghost predicate Pending(e: Edges, ch: Children, s: Search, b: seq<Frame>, w: seq<Frame>) {
    && Inv(e, ch, s, b) && w != []
    && var v := w[|w|-1].node;
       && v !in s.index && v in Nodes(e)
       && (if b == [] then w == [Frame(v, 0)] else NextChild(ch, b, v) && w == Pushed(b, v))
  }

  /** What holds each time round the work loop. */
  ghost predicate Working(e: Edges, ch: Children, s: Search, b: seq<Frame>, w: seq<Frame>) {
    if w != [] && w[|w|-1].next == 0 then Pending(e, ch, s, b, w) else Inv(e, ch, s, w)
  }

  lemma RootPending(e: Edges, ch: Children, s: Search, v: Node)
    requires Inv(e, ch, s, []) && v in ch && v !in s.index
    ensures Pending(e, ch, s, [], [Frame(v, 0)]) && s.index.Keys <= Nodes(e)
  {}

  lemma Discover(e: Edges, ch: Children, s: Search, b: seq<Frame>, w: seq<Frame>)
    requires Pending(e, ch, s, b, w)
    ensures Inv(e, ch, Visited(s, w[|w|-1].node), w)
  {
    if b == [] { VisitRoot(e, ch, s, w[|w|-1].node); } else { VisitChild(e, ch, s, b, w[|w|-1].node); }
  }

  /** What the executable steps read off the invariant. */
  lemma Facts(e: Edges, ch: Children, s: Search, w: seq<Frame>)
    requires Inv(e, ch, s, w)
    ensures ch.Keys == Nodes(e) && s.low.Keys == s.index.Keys <= Nodes(e) && NoDup(s.stack)
    ensures w != [] ==> w[|w|-1].node in s.stack && w[|w|-1].node in ch && w[|w|-1].node in s.index
    ensures w != [] ==> w[|w|-1].next <= |ch[w[|w|-1].node]|
    ensures |w| >= 2 ==> w[|w|-2].node in s.index && w[|w|-2].next > 0
    ensures |w| == 1 ==> s.low[w[0].node] == s.index[w[0].node]
    ensures w != [] ==> s.low[w[|w|-1].node] <= s.index[w[|w|-1].node]
  {
    if w != [] { assert Witnessed(e, s, w[|w|-1].node); }
    if |w| == 1 { LoneFrameIsRoot(e, ch, s, w); }
    if |w| >= 2 { assert w[|w|-2].node in s.stack; }
    forall i, j | 0 <= i < j < |s.stack| ensures s.stack[i] != s.stack[j] {
      assert s.index[s.stack[i]] < s.index[s.stack[j]];
    }
  }

  lemma Start(e: Edges, ch: Children)
    requires Adjacent(e, ch)
    ensures Inv(e, ch, Search(map[], map[], [], 0), []) && Found(e, Search(map[], map[], [], 0), []) && Marked([], map[])
  {}

  lemma AllDone(e: Edges, ch: Children, s: Search, sccs: seq<seq<Node>>, roots: seq<Node>)
    requires Inv(e, ch, s, []) && Found(e, s, sccs)
    requires (forall x :: x in Nodes(e) ==> x in roots) && forall j :: 0 <= j < |roots| ==> roots[j] in s.index
    ensures SortBy(sccs, NamesLe) == Cycles(e)
  {
    EmptyWhenIdle(e, s);
    NamesOrder();
    SortBySorted(sccs, NamesLe);
    SortByElems(sccs, NamesLe);
    var r := SortBy(sccs, NamesLe);
    forall g ensures g in r <==> g in Cycles(e) {
      InCycles(e, g);
      if g in sccs { assert Justified(e, s, g); }
      if g in Cycles(e) {
        var x :| x in Nodes(e) && Cyclic(e, SccOf(e, x)) && g == Group(e, x);
        assert Done(s, x);
      }
    }
    SortedUnique(r, Cycles(e), NamesLe);
  }

  /** Strongly connected components of two or more nodes, plus self-loops, in sorted order. */
  method FindCycles(edges: Edges) returns (r: seq<seq<Node>>)
    ensures r == Cycles(edges)
  {
    hide *;
    NameOrder();
    var graph := ChildrenOf(edges);
    var index: map<Node, nat>, lowlink: map<Node, nat>, onStack: map<Node, bool> := map[], map[], map[];
    var stack: seq<Node>, counter: nat, sccs: seq<seq<Node>> := [], 0, [];
    var roots := SortedOf(graph.Keys, NameLe);
    Start(edges, graph);
    Facts(edges, graph, Search(index, lowlink, stack, counter), []);
    for i := 0 to |roots|
      invariant Inv(edges, graph, Search(index, lowlink, stack, counter), [])
      invariant Found(edges, Search(index, lowlink, stack, counter), sccs)
      invariant Marked(stack, onStack)
      invariant forall j :: 0 <= j < i ==> roots[j] in index
    {
      if roots[i] !in index {
        index, lowlink, onStack, stack, counter, sccs :=
          Explore(edges, graph, roots[i], index, lowlink, onStack, stack, counter, sccs);
      }
    }
    AllDone(edges, graph, Search(index, lowlink, stack, counter), sccs, roots);
    r := SortBy(sccs, NamesLe);
  }

  ghost predicate Marked(stack: seq<Node>, onStack: map<Node, bool>) {
    forall x :: x in stack <==> x in onStack && onStack[x]
  }

  /** The work-stack loop from one undiscovered root. */
  method Explore(ghost e: Edges, graph: Children, root: Node, index0: map<Node, nat>, lowlink0: map<Node, nat>,
                 onStack0: map<Node, bool>, stack0: seq<Node>, counter0: nat, sccs0: seq<seq<Node>>)
    returns (index: map<Node, nat>, lowlink: map<Node, nat>, onStack: map<Node, bool>, stack: seq<Node>, counter: nat,
             sccs: seq<seq<Node>>)
    requires Inv(e, graph, Search(index0, lowlink0, stack0, counter0), [])
    requires Found(e, Search(index0, lowlink0, stack0, counter0), sccs0)
    requires Marked(stack0, onStack0) && root in graph && root !in index0
    ensures Inv(e, graph, Search(index, lowlink, stack, counter), [])
    ensures Found(e, Search(index, lowlink, stack, counter), sccs)
    ensures Marked(stack, onStack) && index0.Keys + {root} <= index.Keys
  {
    hide Inv, Found, Marked, NextChild, Finished, Nodes, Pending;
    index, lowlink, onStack, stack, counter, sccs := index0, lowlink0, onStack0, stack0, counter0, sccs0;
    var work: seq<Frame> := [Frame(root, 0)];
    ghost var base: seq<Frame> := [];
    RootPending(e, graph, Search(index, lowlink, stack, counter), root);
    while work != []
      invariant Working(e, graph, Search(index, lowlink, stack, counter), base, work)
      invariant Found(e, Search(index, lowlink, stack, counter), sccs)
      invariant Marked(stack, onStack)
      invariant index0.Keys <= index.Keys <= Nodes(e) && (root in index || work == [Frame(root, 0)])
      decreases Nodes(e) - index.Keys, if work != [] && work[|work|-1].next == 0 then 0 else 1, |work|
    {
      var node, childI := work[|work|-1].node, work[|work|-1].next;
      if childI == 0 {
        index, lowlink, onStack, stack, counter :=
          Enter(e, graph, node, work, base, index, lowlink, onStack, stack, counter, sccs);
      }
      ghost var s0 := Search(index, lowlink, stack, counter);
      Facts(e, graph, s0, work);
      var advanced;
      childI, lowlink, advanced := ScanChildren(e, graph, work, index, lowlink, onStack, stack, counter);
      FoundSame(e, s0, Search(index, lowlink, stack, counter), sccs);
      work := work[|work|-1 := Frame(node, childI)];
      if advanced {
        base := work;
        ChildPending(e, graph, Search(index, lowlink, stack, counter), work, graph[node][childI]);
        work := work[|work|-1 := Frame(node, childI + 1)] + [Frame(graph[node][childI], 0)];
      } else {
        lowlink, onStack, stack, sccs := CloseFrame(e, graph, work, index, lowlink, onStack, stack, counter, sccs);
        work := work[..|work|-1];
      }
    }
  }

  /** First visit of a node: number it and put it on the component stack. */
  method Enter(ghost e: Edges, ghost graph: Children, node: Node, ghost work: seq<Frame>, ghost base: seq<Frame>,
               index0: map<Node, nat>, lowlink0: map<Node, nat>, onStack0: map<Node, bool>, stack0: seq<Node>,
               counter0: nat, ghost sccs: seq<seq<Node>>)
    returns (index: map<Node, nat>, lowlink: map<Node, nat>, onStack: map<Node, bool>, stack: seq<Node>, counter: nat)
    requires Pending(e, graph, Search(index0, lowlink0, stack0, counter0), base, work) && node == work[|work|-1].node
    requires Found(e, Search(index0, lowlink0, stack0, counter0), sccs) && Marked(stack0, onStack0)
    ensures Inv(e, graph, Search(index, lowlink, stack, counter), work)
    ensures Found(e, Search(index, lowlink, stack, counter), sccs) && Marked(stack, onStack)
    ensures node !in index0 && node in Nodes(e) && index.Keys == index0.Keys + {node}
  {
    hide Inv, Found, Marked, NextChild, Nodes;
    ghost var s := Search(index0, lowlink0, stack0, counter0);
    Discover(e, graph, s, base, work);
    FoundVisited(e, s, node, sccs);
    MarkedPush(stack0, onStack0, node);
    index, lowlink, counter := index0[node := counter0], lowlink0[node := counter0], counter0 + 1;
    stack, onStack := stack0 + [node], onStack0[node := true];
    assert Visited(s, node) == Search(index, lowlink, stack, counter);
  }

  lemma ChildPending(e: Edges, ch: Children, s: Search, w: seq<Frame>, v: Node)
    requires Inv(e, ch, s, w) && NextChild(ch, w, v) && v !in s.index
    ensures Pending(e, ch, s, w, Pushed(w, v)) && v in Nodes(e)
  {
    NextChildEdge(e, ch, w, v);
  }

  lemma FoundSame(e: Edges, s: Search, t: Search, sccs: seq<seq<Node>>)
    requires Found(e, s, sccs) && t.index == s.index && t.stack == s.stack
    ensures Found(e, t, sccs)
  {
    FoundEquiv(e, s, t, sccs);
  }

  lemma FoundEquiv(e: Edges, s: Search, t: Search, sccs: seq<seq<Node>>)
    requires Found(e, s, sccs) && forall x :: Done(s, x) <==> Done(t, x)
    ensures Found(e, t, sccs)
  {
    forall g | g in sccs ensures Justified(e, t, g) { assert Justified(e, s, g); }
  }

  lemma MarkedPush(stack: seq<Node>, onStack: map<Node, bool>, v: Node)
    requires Marked(stack, onStack)
    ensures Marked(stack + [v], onStack[v := true])
  {}

  /** The top frame has finished: emit its component if it is a root, and tell its parent its lowlink. */
  method CloseFrame(ghost e: Edges, graph: Children, work: seq<Frame>, index: map<Node, nat>, lowlink0: map<Node, nat>,
                    onStack0: map<Node, bool>, stack0: seq<Node>, ghost counter: nat, sccs0: seq<seq<Node>>)
    returns (lowlink: map<Node, nat>, onStack: map<Node, bool>, stack: seq<Node>, sccs: seq<seq<Node>>)
    requires Inv(e, graph, Search(index, lowlink0, stack0, counter), work) && Finished(graph, work)
    requires Found(e, Search(index, lowlink0, stack0, counter), sccs0) && Marked(stack0, onStack0)
    ensures Inv(e, graph, Search(index, lowlink, stack, counter), work[..|work|-1])
    ensures Found(e, Search(index, lowlink, stack, counter), sccs) && Marked(stack, onStack)
  {
    hide Inv, Found, Marked, Merged, Nodes;
    ghost var s := Search(index, lowlink0, stack0, counter);
    Facts(e, graph, s, work);
    var n := |work| - 1;
    var node := work[n].node;
    lowlink, onStack, stack, sccs := lowlink0, onStack0, stack0, sccs0;
    if lowlink[node] == index[node] {
      onStack, stack, sccs := EmitRoot(e, graph, work, index, lowlink0, onStack0, stack0, counter, sccs0);
    }
    if n > 0 {
      var parent := work[n-1].node;
      ParentLow(e, graph, s, work);
      lowlink := lowlink[parent := if lowlink[node] < lowlink[parent] then lowlink[node] else lowlink[parent]];
      if lowlink0[node] == index[node] {
        assert lowlink == lowlink0;
      } else {
        MergedIs(s, work, lowlink);
        FoundSame(e, s, Merged(s, work), sccs);
      }
    }
  }

  lemma MergedIs(s: Search, w: seq<Frame>, low: map<Node, nat>)
    requires |w| >= 2 && w[|w|-1].node in s.low && w[|w|-2].node in s.low
    requires var v, p := w[|w|-1].node, w[|w|-2].node; low == s.low[p := if s.low[v] < s.low[p] then s.low[v] else s.low[p]]
    ensures Merged(s, w) == Search(s.index, low, s.stack, s.counter)
  {}

  /** The top frame is a root: pop its component, and emit it if it is a group. */
  method EmitRoot(ghost e: Edges, graph: Children, work: seq<Frame>, index: map<Node, nat>, ghost lowlink: map<Node, nat>,
                  onStack0: map<Node, bool>, stack0: seq<Node>, ghost counter: nat, sccs0: seq<seq<Node>>)
    returns (onStack: map<Node, bool>, stack: seq<Node>, sccs: seq<seq<Node>>)
    requires Inv(e, graph, Search(index, lowlink, stack0, counter), work) && Finished(graph, work)
    requires Found(e, Search(index, lowlink, stack0, counter), sccs0) && Marked(stack0, onStack0)
    requires work[|work|-1].node in lowlink && work[|work|-1].node in index && lowlink[work[|work|-1].node] == index[work[|work|-1].node]
    ensures Inv(e, graph, Search(index, lowlink, stack, counter), work[..|work|-1])
    ensures Found(e, Search(index, lowlink, stack, counter), sccs) && Marked(stack, onStack)
  {
    hide Inv, Found, Marked, SccOf, Cyclic, Nodes, Group, SortBy;
    ghost var s := Search(index, lowlink, stack0, counter);
    Facts(e, graph, s, work);
    var node := work[|work|-1].node;
    var comp;
    ghost var k;
    stack, onStack, comp, k := PopComponent(stack0, onStack0, node, index);
    CloseRoot(e, graph, s, work, k, sccs0);
    AdjacentNow(e, graph, s, work);
    ComponentQualifies(e, graph, node, comp);
    sccs := sccs0;
    if |comp| >= 2 || node in graph[node] {
      SortedComponent(e, node, comp);
      sccs := sccs + [SortBy(comp, NameLe)];
    }
    assert Cut(s, k) == Search(index, lowlink, stack, counter);
    assert sccs == Emitted(e, node, sccs0);
  }

  lemma AdjacentNow(e: Edges, ch: Children, s: Search, w: seq<Frame>)
    requires Inv(e, ch, s, w)
    ensures Adjacent(e, ch)
  {}

  /** The emitted test on the popped list is the test on the component. */
  lemma ComponentQualifies(e: Edges, ch: Children, v: Node, comp: seq<Node>)
    requires Adjacent(e, ch) && v in Nodes(e) && NoDup(comp) && forall x :: x in comp <==> x in SccOf(e, v)
    ensures (|comp| >= 2 || v in ch[v]) <==> Cyclic(e, SccOf(e, v))
  {
    SccOfSelf(e, v);
    NoDupCard(comp);
    assert Elems(comp) == SccOf(e, v);
    if |comp| < 2 && Cyclic(e, SccOf(e, v)) {
      var x :| x in SccOf(e, v) && Edge(e, x, x);
      assert x in comp && v in comp && comp[0] == x == v;
    }
  }

  lemma SortedComponent(e: Edges, v: Node, comp: seq<Node>)
    requires NoDup(comp) && forall x :: x in comp <==> x in SccOf(e, v)
    ensures SortBy(comp, NameLe) == Group(e, v)
  {
    NameOrder();
    SortBySorted(comp, NameLe);
    SortByElems(comp, NameLe);
    SortedUnique(SortBy(comp, NameLe), Group(e, v), NameLe);
  }

  /** A root tells its parent nothing new; any other frame is merged into its parent. */
  lemma ParentLow(e: Edges, ch: Children, s: Search, w: seq<Frame>)
    requires Inv(e, ch, s, w) && Finished(ch, w) && |w| >= 2
    ensures var v, p := w[|w|-1].node, w[|w|-2].node;
            && p in s.low && v in s.low
            && (s.low[v] == s.index[v] ==> s.low[p] <= s.low[v])
            && (s.low[v] != s.index[v] ==> Inv(e, ch, Merged(s, w), w[..|w|-1]))
  {
    var n := |w| - 1;
    assert Witnessed(e, s, w[n].node) && Witnessed(e, s, w[n-1].node);
    if s.low[w[n].node] != s.index[w[n].node] {
      MergeShape(e, ch, s, w);
      MergeReach(e, ch, s, w);
      MergeLow(e, ch, s, w);
    }
  }

  lemma FoundVisited(e: Edges, s: Search, v: Node, sccs: seq<seq<Node>>)
    requires Found(e, s, sccs) && v !in s.index
    ensures Found(e, Visited(s, v), sccs)
  {
    FoundEquiv(e, s, Visited(s, v), sccs);
  }

  /** The child loop of the top frame: stops at an undiscovered child, or when all children are seen. */
  method ScanChildren(ghost e: Edges, graph: Children, work: seq<Frame>, index: map<Node, nat>, lowlink0: map<Node, nat>,
                      onStack: map<Node, bool>, ghost stack: seq<Node>, ghost counter: nat)
    returns (childI: nat, lowlink: map<Node, nat>, advanced: bool)
    requires work != [] && Inv(e, graph, Search(index, lowlink0, stack, counter), work)
    requires Marked(stack, onStack)
    ensures var w := work[|work|-1 := Frame(work[|work|-1].node, childI)];
            var s := Search(index, lowlink, stack, counter);
            && Inv(e, graph, s, w)
            && (if advanced then childI < |graph[work[|work|-1].node]| && graph[work[|work|-1].node][childI] !in index
                                 && NextChild(graph, w, graph[work[|work|-1].node][childI])
                else Finished(graph, w))
  {
    hide Inv;
    Facts(e, graph, Search(index, lowlink0, stack, counter), work);
    var node := work[|work|-1].node;
    ghost var n := |work| - 1;
    childI, lowlink, advanced := work[|work|-1].next, lowlink0, false;
    assert work[n := Frame(node, childI)] == work;
    var children := graph[node];
    while childI < |children| && !advanced
      invariant childI <= |children| && Inv(e, graph, Search(index, lowlink, stack, counter), work[n := Frame(node, childI)])
      invariant advanced ==> childI < |children| && children[childI] !in index
      decreases |children| - childI, !advanced
    {
      var child := children[childI];
      if child !in index {
        advanced := true;
      } else {
        Facts(e, graph, Search(index, lowlink, stack, counter), work[n := Frame(node, childI)]);
        ScanChild(e, graph, Search(index, lowlink, stack, counter), work[n := Frame(node, childI)], child);
        if child in onStack && onStack[child] {
          lowlink := lowlink[node := if index[child] < lowlink[node] then index[child] else lowlink[node]];
        }
        childI := childI + 1;
        assert Advanced(work[n := Frame(node, childI - 1)]) == work[n := Frame(node, childI)];
      }
    }
  }

  /** Pops the stack down to and including `node`. */
  method PopComponent(stack0: seq<Node>, onStack0: map<Node, bool>, node: Node, ghost index: map<Node, nat>)
    returns (stack: seq<Node>, onStack: map<Node, bool>, comp: seq<Node>, ghost k: nat)
    requires node in stack0 && Marked(stack0, onStack0) && NoDup(stack0)
    ensures k < |stack0| && stack0[k] == node && stack == stack0[..k]
    ensures Marked(stack, onStack)
    ensures NoDup(comp) && forall x :: x in comp <==> x in stack0[k..]
  {
    stack, onStack, comp := stack0, onStack0, [];
    var popped := false;
    while !popped
      invariant stack <= stack0 && Marked(stack, onStack)
      invariant |comp| == |stack0| - |stack| && forall i :: 0 <= i < |comp| ==> comp[i] == stack0[|stack0| - 1 - i]
      invariant if popped then |stack| < |stack0| && stack0[|stack|] == node else node in stack
      decreases |stack|
    {
      var n := stack[|stack|-1];
      assert forall x :: x in stack <==> x in stack[..|stack|-1] || x == n;
      stack := stack[..|stack|-1];
      onStack := onStack[n := false];
      comp := comp + [n];
      popped := n == node;
    }
    k := |stack|;
    forall x ensures x in comp <==> x in stack0[k..] {
      if x in comp { var i :| 0 <= i < |comp| && comp[i] == x; assert stack0[k..][|stack0| - 1 - i - k] == x; }
      if x in stack0[k..] { var i :| 0 <= i < |stack0| - k && stack0[k..][i] == x; assert comp[|stack0| - 1 - i - k] == x; }
    }
  }
}
