/** The deadlock detector on values: the wait-for graph, contested streaks, and what one scan reports. */
module Detector {
  import opened Order
  import opened Schemas
  import opened Graph
  import Ledger

  /** An open contest as the detector sees it: who challenges which claim. */
  datatype Challenge = Challenge(agent: Name, target: nat)

  datatype Key = CycleKey(agents: seq<Name>, claims: seq<nat>) | ContestedKey(resource: Name, claims: seq<nat>)

  datatype State = State(threshold: nat, streaks: map<Name, nat>, fired: set<Key>, last: nat)

  function Start(threshold: nat): State { State(threshold, map[], {}, 0) }

  function KeyOf(d: Deadlock): Key
    requires d.kind == Contested ==> d.resources != []
  {
    if d.kind == Cycle then CycleKey(d.agents, d.claims) else ContestedKey(d.resources[0], d.claims)
  }

  function ResetResource(d: State, r: Name): State {
    d.(streaks := d.streaks - {r})
  }

  // ---------------------------------------------------------------- who waits on whom

  predicate IsBlocked(s: Ledger.State, c: nat) {
    c in s.claims && s.claims[c].status == Blocked
  }

  function ClaimsHolding(s: Ledger.State, r: Name): set<nat> {
    set k | k in s.allocs.Keys && k.0 == r && s.allocs[k].claim in s.claims :: s.allocs[k].claim
  }

  /** `holder_agents`: the agents holding allocations on `r` ... */
  function HolderAgents(s: Ledger.State, r: Name): set<Name> {
    set c | c in ClaimsHolding(s, r) && c in s.claims :: s.claims[c].proposal.agent
  }

  /** ... and under which claims. */
  function HolderClaims(s: Ledger.State, r: Name, agent: Name): set<nat> {
    set c | c in ClaimsHolding(s, r) && c in s.claims && s.claims[c].proposal.agent == agent
  }

  /** A blocked claim and another agent that holds its resource. */
  type Wait = (nat, Name)

  predicate WaitsOn(s: Ledger.State, w: Wait) {
    && IsBlocked(s, w.0) && w.1 in HolderAgents(s, s.claims[w.0].proposal.resource)
    && w.1 != s.claims[w.0].proposal.agent
  }

  function Waits(s: Ledger.State): (ws: set<Wait>)
    ensures forall w :: w in ws <==> WaitsOn(s, w)
  {
    var ws := set c, h | c in s.claims.Keys && IsBlocked(s, c) && h in HolderAgents(s, s.claims[c].proposal.resource)
                         && h != s.claims[c].proposal.agent :: (c, h);
    assert forall w :: WaitsOn(s, w) ==> (w.0, w.1) in ws;
    ws
  }

  function Claimant(s: Ledger.State, w: Wait): Name
    requires w.0 in s.claims
  {
    s.claims[w.0].proposal.agent
  }

  function Wanted(s: Ledger.State, w: Wait): Name
    requires w.0 in s.claims
  {
    s.claims[w.0].proposal.resource
  }

  function Waiters(s: Ledger.State, ws: set<Wait>): set<Name> {
    set w | w in ws && w.0 in s.claims :: Claimant(s, w)
  }

  function WaitedOn(s: Ledger.State, ws: set<Wait>, a: Name): set<Name> {
    set w | w in ws && w.0 in s.claims && Claimant(s, w) == a :: w.1
  }

  /** The wait-for graph drawn by a set of waits. */
  function WaitEdges(s: Ledger.State, ws: set<Wait>): Edges {
    map a | a in Waiters(s, ws) :: WaitedOn(s, ws, a)
  }

  /** The resources an agent is involved in, as claimant or as holder. */
  function InvolvedResources(s: Ledger.State, ws: set<Wait>, a: Name): set<Name> {
    set w | w in ws && w.0 in s.claims && (Claimant(s, w) == a || w.1 == a) :: Wanted(s, w)
  }

  /** The claims it waits with, and the claims it holds against others. */
  function InvolvedClaims(s: Ledger.State, ws: set<Wait>, a: Name): set<nat> {
    (set w | w in ws && w.0 in s.claims && Claimant(s, w) == a :: w.0)
    + (set w, c | w in ws && w.0 in s.claims && w.1 == a && c in HolderClaims(s, Wanted(s, w), a) :: c)
  }

  function GroupResources(s: Ledger.State, ws: set<Wait>, g: seq<Name>): set<Name> {
    set a, r | a in g && r in InvolvedResources(s, ws, a) :: r
  }

  function GroupClaims(s: Ledger.State, ws: set<Wait>, g: seq<Name>): set<nat> {
    set a, c | a in g && c in InvolvedClaims(s, ws, a) :: c
  }

  // ---------------------------------------------------------------- contested resources

  /** A challenge of a granted claim. */
  predicate Live(s: Ledger.State, x: Challenge) {
    x.target in s.claims && s.claims[x.target].status == Granted
  }

  function BlockedOn(s: Ledger.State, r: Name): set<nat> {
    set c | c in s.claims && IsBlocked(s, c) && s.claims[c].proposal.resource == r
  }

  function ChallengedOn(s: Ledger.State, xs: seq<Challenge>, r: Name): set<Challenge> {
    set x | x in xs && Live(s, x) && s.claims[x.target].proposal.resource == r
  }

  function ContestedNow(s: Ledger.State, xs: seq<Challenge>): set<Name> {
    (set c | c in s.claims && IsBlocked(s, c) :: s.claims[c].proposal.resource)
    + (set x | x in xs && Live(s, x) :: s.claims[x.target].proposal.resource)
  }

  function ContestAgents(s: Ledger.State, xs: seq<Challenge>, r: Name): set<Name> {
    (set c | c in BlockedOn(s, r) :: s.claims[c].proposal.agent)
    + (if BlockedOn(s, r) != {} then HolderAgents(s, r) else {})
    + (set x | x in ChallengedOn(s, xs, r) :: x.agent)
    + (set x | x in ChallengedOn(s, xs, r) :: s.claims[x.target].proposal.agent)
  }

  function ContestClaims(s: Ledger.State, xs: seq<Challenge>, r: Name): set<nat> {
    BlockedOn(s, r)
    + (if BlockedOn(s, r) != {} then ClaimsHolding(s, r) else {})
    + (set x | x in ChallengedOn(s, xs, r) :: x.target)
  }

  // ---------------------------------------------------------------- one scan

  function SortedNats(s: set<nat>): (r: seq<nat>)
    ensures |r| == |s| && NoDup(r) && forall x :: x in r <==> x in s
  {
    NatOrder();
    SortedOf(s, NatLe)
  }

  datatype Found = Found(state: State, deadlocks: seq<Deadlock>, resources: set<Name>)

  function Report(d: State, k: Key, dl: Deadlock): State {
    d.(fired := d.fired + {k}, last := dl.id)
  }

  /** What a group of agents waiting on each other is reported as. */
  function CycleDeadlock(d: State, s: Ledger.State, ws: set<Wait>, g: seq<Name>, round: nat): Deadlock {
    Deadlock(d.last + 1, Cycle, round, Ledger.SortedNames(GroupResources(s, ws, g)), g, SortedNats(GroupClaims(s, ws, g)))
  }

  function ContestedDeadlock(d: State, s: Ledger.State, xs: seq<Challenge>, r: Name, round: nat): (dl: Deadlock)
    ensures dl.kind == Contested && dl.resources == [r]
  {
    Deadlock(d.last + 1, Contested, round, [r], Ledger.SortedNames(ContestAgents(s, xs, r)), SortedNats(ContestClaims(s, xs, r)))
  }

  /** Cycles first: each group whose key has not fired yet. */
  function FireCycles(d: State, s: Ledger.State, ws: set<Wait>, gs: seq<seq<Name>>, round: nat): Found
    decreases |gs|
  {
    if gs == [] then Found(d, [], {})
    else
      var dl := CycleDeadlock(d, s, ws, gs[0], round);
      if KeyOf(dl) in d.fired then FireCycles(d, s, ws, gs[1..], round)
      else
        var rest := FireCycles(Report(d, KeyOf(dl), dl), s, ws, gs[1..], round);
        Found(rest.state, [dl] + rest.deadlocks, Elems(dl.resources) + rest.resources)
  }

  function StreakIn(m: map<Name, nat>, r: Name): nat {
    if r in m then m[r] else 0
  }

  /** Uncontested resources lose their streak; contested ones gain a round. */
  function Advance(d: State, now: set<Name>): State {
    d.(streaks := map r | r in now :: StreakIn(d.streaks, r) + 1)
  }

  /** Then every contested resource at the threshold, unless a cycle reported this round covers it. */
  function FireContested(d: State, s: Ledger.State, xs: seq<Challenge>, rs: seq<Name>, covered: set<Name>, round: nat): Found
    decreases |rs|
  {
    if rs == [] then Found(d, [], {})
    else
      var r := rs[0];
      var dl := ContestedDeadlock(d, s, xs, r, round);
      if r in covered || StreakIn(d.streaks, r) < d.threshold || KeyOf(dl) in d.fired
      then FireContested(d, s, xs, rs[1..], covered, round)
      else
        var rest := FireContested(Report(d, KeyOf(dl), dl), s, xs, rs[1..], covered, round);
        Found(rest.state, [dl] + rest.deadlocks, rest.resources)
  }

  ghost function ScanCycles(d: State, s: Ledger.State, round: nat): Found {
    FireCycles(d, s, Waits(s), Cycles(WaitEdges(s, Waits(s))), round)
  }

  ghost function Scan(d: State, s: Ledger.State, xs: seq<Challenge>, round: nat): Found {
    var cyc := ScanCycles(d, s, round);
    var now := ContestedNow(s, xs);
    var con := FireContested(Advance(cyc.state, now), s, xs, Ledger.SortedNames(now), cyc.resources, round);
    Found(con.state, cyc.deadlocks + con.deadlocks, cyc.resources)
  }

  // ---------------------------------------------------------------- genuine and complete

  lemma WaitEdge(s: Ledger.State, a: Name, h: Name)
    ensures Edge(WaitEdges(s, Waits(s)), a, h) <==>
            exists c :: WaitsOn(s, (c, h)) && s.claims[c].proposal.agent == a
  {
    var ws := Waits(s);
    if Edge(WaitEdges(s, ws), a, h) {
      var w :| w in ws && w.0 in s.claims && Claimant(s, w) == a && w.1 == h;
      assert WaitsOn(s, (w.0, h));
    }
    if c :| WaitsOn(s, (c, h)) && s.claims[c].proposal.agent == a {
      assert (c, h) in ws;
    }
  }

  lemma WaitInGroup(s: Ledger.State, g: seq<Name>, c: nat, h: Name)
    requires WaitsOn(s, (c, h)) && s.claims[c].proposal.agent in g
    ensures c in GroupClaims(s, Waits(s), g) && s.claims[c].proposal.resource in GroupResources(s, Waits(s), g)
  {
    var ws, a := Waits(s), s.claims[c].proposal.agent;
    assert (c, h) in ws;
    assert c in InvolvedClaims(s, ws, a);
    assert Wanted(s, (c, h)) in InvolvedResources(s, ws, a);
  }

  /** Every agent in a cyclic group has a blocked claim on a resource held by another agent of the group. */
  lemma GroupGenuine(s: Ledger.State, g: seq<Name>, a: Name)
    requires g in Cycles(WaitEdges(s, Waits(s))) && a in g
    ensures exists c, h :: WaitsOn(s, (c, h)) && s.claims[c].proposal.agent == a && h in g
                           && c in GroupClaims(s, Waits(s), g) && s.claims[c].proposal.resource in GroupResources(s, Waits(s), g)
  {
    var e := WaitEdges(s, Waits(s));
    CyclesStep(e, g, a);
    var h :| h in g && Edge(e, a, h);
    WaitEdge(s, a, h);
    hide WaitEdges, Waits, Cycles, GroupClaims, GroupResources;
    var c :| WaitsOn(s, (c, h)) && s.claims[c].proposal.agent == a;
    WaitInGroup(s, g, c, h);
  }

  /**
   * A reported cycle is genuine: each of its agents has a blocked claim on a resource that another of its agents
   * holds, and both claim and resource are in the report.
   */
  lemma CycleGenuine(d: State, s: Ledger.State, xs: seq<Challenge>, round: nat, dl: Deadlock, a: Name)
    requires dl in Scan(d, s, xs, round).deadlocks && dl.kind == Cycle && a in dl.agents
    ensures exists c, h :: WaitsOn(s, (c, h)) && s.claims[c].proposal.agent == a && h in dl.agents && h != a
                           && c in dl.claims && s.claims[c].proposal.resource in dl.resources
  {
    hide WaitEdges, Waits, Cycles, FireCycles, FireContested, GroupClaims, GroupResources, ContestedNow;
    var cyc, now := ScanCycles(d, s, round), ContestedNow(s, xs);
    var con := FireContested(Advance(cyc.state, now), s, xs, Ledger.SortedNames(now), cyc.resources, round);
    if dl in con.deadlocks { FiresAtThreshold(Advance(cyc.state, now), s, xs, Ledger.SortedNames(now), cyc.resources, round, dl); }
    CyclesOnly(d, s, Waits(s), Cycles(WaitEdges(s, Waits(s))), round);
    GroupGenuine(s, dl.agents, a);
  }

  lemma {:induction false} FiredKeys(d: State, s: Ledger.State, ws: set<Wait>, gs: seq<seq<Name>>, round: nat, i: nat)
    requires i < |gs|
    ensures CycleKey(gs[i], SortedNats(GroupClaims(s, ws, gs[i]))) in FireCycles(d, s, ws, gs, round).state.fired
    decreases |gs|
  {
    hide GroupClaims, GroupResources, SortedNats, Ledger.SortedNames;
    var dl := CycleDeadlock(d, s, ws, gs[0], round);
    var d1 := if KeyOf(dl) in d.fired then d else Report(d, KeyOf(dl), dl);
    if i == 0 {
      FireCyclesGrows(d1, s, ws, gs[1..], round);
    } else {
      FiredKeys(d1, s, ws, gs[1..], round, i - 1);
    }
  }

  lemma {:induction false} FireCyclesGrows(d: State, s: Ledger.State, ws: set<Wait>, gs: seq<seq<Name>>, round: nat)
    ensures d.fired <= FireCycles(d, s, ws, gs, round).state.fired
    decreases |gs|
  {
    if gs != [] {
      var dl := CycleDeadlock(d, s, ws, gs[0], round);
      FireCyclesGrows(if KeyOf(dl) in d.fired then d else Report(d, KeyOf(dl), dl), s, ws, gs[1..], round);
    }
  }

  lemma {:induction false} FireContestedGrows(d: State, s: Ledger.State, xs: seq<Challenge>, rs: seq<Name>, covered: set<Name>, round: nat)
    ensures d.fired <= FireContested(d, s, xs, rs, covered, round).state.fired
    decreases |rs|
  {
    if rs != [] {
      var dl := ContestedDeadlock(d, s, xs, rs[0], round);
      FireContestedGrows(d, s, xs, rs[1..], covered, round);
      FireContestedGrows(Report(d, KeyOf(dl), dl), s, xs, rs[1..], covered, round);
    }
  }

  /** If the wait-for relation has a cycle, the key of its component has fired once the scan is over. */
  lemma CycleComplete(d: State, s: Ledger.State, xs: seq<Challenge>, round: nat, a: Name, h: Name)
    requires Edge(WaitEdges(s, Waits(s)), a, h) && Reach(WaitEdges(s, Waits(s)), h, a)
    ensures exists g :: g in Cycles(WaitEdges(s, Waits(s))) && a in g && h in g
                        && CycleKey(g, SortedNats(GroupClaims(s, Waits(s), g))) in Scan(d, s, xs, round).state.fired
  {
    var ws := Waits(s);
    var e := WaitEdges(s, ws);
    CyclesComplete(e, a, h);
    var g :| g in Cycles(e) && a in g && h in g;
    var i :| 0 <= i < |Cycles(e)| && Cycles(e)[i] == g;
    FiredKeys(d, s, ws, Cycles(e), round, i);
    var cyc := ScanCycles(d, s, round);
    var now := ContestedNow(s, xs);
    FireContestedGrows(Advance(cyc.state, now), s, xs, Ledger.SortedNames(now), cyc.resources, round);
  }

  // ---------------------------------------------------------------- nothing fires twice

  predicate Keyed(ds: seq<Deadlock>) {
    forall d :: d in ds && d.kind == Contested ==> d.resources != []
  }

  function Keys(ds: seq<Deadlock>): (ks: seq<Key>)
    requires Keyed(ds)
    ensures |ks| == |ds| && forall i :: 0 <= i < |ks| ==> ks[i] == KeyOf(ds[i])
  {
    seq(|ds|, i requires 0 <= i < |ds| => KeyOf(ds[i]))
  }

  /** The reports are new, all different, and are exactly what joins the fired keys. */
  ghost predicate Fresh(before: set<Key>, ds: seq<Deadlock>, after: set<Key>) {
    Keyed(ds) && NoDup(Keys(ds)) && Elems(Keys(ds)) !! before && after == before + Elems(Keys(ds))
  }

  lemma FreshNone(before: set<Key>)
    ensures Fresh(before, [], before)
  {}

  lemma FreshFirst(before: set<Key>, d: Deadlock, ds: seq<Deadlock>, after: set<Key>)
    requires (d.kind == Contested ==> d.resources != []) && KeyOf(d) !in before && Fresh(before + {KeyOf(d)}, ds, after)
    ensures Fresh(before, [d] + ds, after)
  {
    var r := [d] + ds;
    assert Keys(r) == [KeyOf(d)] + Keys(ds);
    assert KeyOf(d) !in Keys(ds);
    assert Elems(Keys(r)) == {KeyOf(d)} + Elems(Keys(ds));
  }

  lemma FreshConcat(before: set<Key>, d1: seq<Deadlock>, middle: set<Key>, d2: seq<Deadlock>, after: set<Key>)
    requires Fresh(before, d1, middle) && Fresh(middle, d2, after)
    ensures Fresh(before, d1 + d2, after)
  {
    assert Keys(d1 + d2) == Keys(d1) + Keys(d2);
    assert Elems(Keys(d1 + d2)) == Elems(Keys(d1)) + Elems(Keys(d2));
    var k1, k2 := Keys(d1), Keys(d2);
    forall i, j | 0 <= i < |k1| && 0 <= j < |k2| ensures k1[i] != k2[j] {
      assert k1[i] in Elems(k1) && k2[j] in Elems(k2);
    }
  }

  lemma {:induction false} CyclesFresh(d: State, s: Ledger.State, ws: set<Wait>, gs: seq<seq<Name>>, round: nat)
    ensures var f := FireCycles(d, s, ws, gs, round);
            Fresh(d.fired, f.deadlocks, f.state.fired) && f.state.streaks == d.streaks && f.state.threshold == d.threshold
    decreases |gs|
  {
    hide Fresh, GroupClaims, GroupResources;
    if gs == [] {
      FreshNone(d.fired);
    } else {
      var dl := CycleDeadlock(d, s, ws, gs[0], round);
      if KeyOf(dl) in d.fired {
        CyclesFresh(d, s, ws, gs[1..], round);
      } else {
        var d1 := Report(d, KeyOf(dl), dl);
        CyclesFresh(d1, s, ws, gs[1..], round);
        var f := FireCycles(d1, s, ws, gs[1..], round);
        FreshFirst(d.fired, dl, f.deadlocks, f.state.fired);
      }
    }
  }

  lemma {:induction false} ContestedFresh(d: State, s: Ledger.State, xs: seq<Challenge>, rs: seq<Name>, covered: set<Name>, round: nat)
    ensures var f := FireContested(d, s, xs, rs, covered, round);
            Fresh(d.fired, f.deadlocks, f.state.fired) && f.state.streaks == d.streaks && f.state.threshold == d.threshold
    decreases |rs|
  {
    hide Fresh, ContestClaims, ContestAgents;
    if rs == [] {
      FreshNone(d.fired);
    } else {
      var dl := ContestedDeadlock(d, s, xs, rs[0], round);
      if rs[0] in covered || StreakIn(d.streaks, rs[0]) < d.threshold || KeyOf(dl) in d.fired {
        ContestedFresh(d, s, xs, rs[1..], covered, round);
      } else {
        var d1 := Report(d, KeyOf(dl), dl);
        ContestedFresh(d1, s, xs, rs[1..], covered, round);
        var f := FireContested(d1, s, xs, rs[1..], covered, round);
        FreshFirst(d.fired, dl, f.deadlocks, f.state.fired);
      }
    }
  }

  /** One scan: its reports are new and distinct, and the streaks advance by one where contested. */
  lemma ScanFresh(d: State, s: Ledger.State, xs: seq<Challenge>, round: nat)
    ensures var f := Scan(d, s, xs, round);
            Fresh(d.fired, f.deadlocks, f.state.fired) && f.state.threshold == d.threshold
            && f.state.streaks == Advance(d, ContestedNow(s, xs)).streaks
  {
    var ws, now := Waits(s), ContestedNow(s, xs);
    CyclesFresh(d, s, ws, Cycles(WaitEdges(s, ws)), round);
    var cyc := ScanCycles(d, s, round);
    var mid := Advance(cyc.state, now);
    ContestedFresh(mid, s, xs, Ledger.SortedNames(now), cyc.resources, round);
    var con := FireContested(mid, s, xs, Ledger.SortedNames(now), cyc.resources, round);
    hide Fresh;
    FreshConcat(d.fired, cyc.deadlocks, cyc.state.fired, con.deadlocks, con.state.fired);
  }

  // ---------------------------------------------------------------- whole histories

  /** What happens to a detector between rounds: scans of some ledger, and resets after rulings. */
  datatype Tick = Scanned(ledger: Ledger.State, challenges: seq<Challenge>, round: nat) | Reset(resource: Name)

  datatype Watched = Watched(state: State, reported: seq<Deadlock>)

  ghost function Watch(threshold: nat, ticks: seq<Tick>): Watched
    decreases |ticks|
  {
    if ticks == [] then Watched(Start(threshold), [])
    else
      var w := Watch(threshold, ticks[..|ticks|-1]);
      match ticks[|ticks|-1]
      case Reset(r) => Watched(ResetResource(w.state, r), w.reported)
      case Scanned(s, xs, round) =>
        var f := Scan(w.state, s, xs, round);
        Watched(f.state, w.reported + f.deadlocks)
  }

  /** Over a whole run no key is reported twice, and the fired keys are those of the reports. */
  lemma {:induction false} NeverTwice(threshold: nat, ticks: seq<Tick>)
    ensures var w := Watch(threshold, ticks);
            Fresh({}, w.reported, w.state.fired) && w.state.threshold == threshold
    decreases |ticks|
  {
    hide Fresh, Scan;
    if ticks == [] {
      FreshNone({});
    } else {
      NeverTwice(threshold, ticks[..|ticks|-1]);
      var w := Watch(threshold, ticks[..|ticks|-1]);
      match ticks[|ticks|-1]
      case Reset(_) =>
      case Scanned(s, xs, round) =>
        ScanFresh(w.state, s, xs, round);
        var f := Scan(w.state, s, xs, round);
        FreshConcat({}, w.reported, w.state.fired, f.deadlocks, f.state.fired);
    }
  }

  /** In every history, a cycle of the wait-for relation is on record after the scan that sees it, with its agents and claims. */
  lemma CycleReported(threshold: nat, ticks: seq<Tick>, s: Ledger.State, xs: seq<Challenge>, round: nat, a: Name, h: Name)
    requires Edge(WaitEdges(s, Waits(s)), a, h) && Reach(WaitEdges(s, Waits(s)), h, a)
    ensures exists dl :: dl in Watch(threshold, ticks + [Scanned(s, xs, round)]).reported && dl.kind == Cycle && a in dl.agents && h in dl.agents
                         && dl.agents in Cycles(WaitEdges(s, Waits(s))) && dl.claims == SortedNats(GroupClaims(s, Waits(s), dl.agents))
  {
    hide WaitEdges, Waits, Cycles, Scan, GroupClaims, Reach;
    var t := ticks + [Scanned(s, xs, round)];
    assert t[..|t|-1] == ticks;
    var w := Watch(threshold, t);
    CycleComplete(Watch(threshold, ticks).state, s, xs, round, a, h);
    var g :| g in Cycles(WaitEdges(s, Waits(s))) && a in g && h in g
             && CycleKey(g, SortedNats(GroupClaims(s, Waits(s), g))) in Scan(Watch(threshold, ticks).state, s, xs, round).state.fired;
    NeverTwice(threshold, t);
    FiredIsReported(w.reported, w.state.fired, CycleKey(g, SortedNats(GroupClaims(s, Waits(s), g))));
  }

  lemma FiredIsReported(ds: seq<Deadlock>, fired: set<Key>, k: Key)
    requires Fresh({}, ds, fired) && k in fired
    ensures exists dl :: dl in ds && (dl.kind == Contested ==> dl.resources != []) && KeyOf(dl) == k
  {
    var i :| 0 <= i < |ds| && Keys(ds)[i] == k;
    assert ds[i] in ds;
  }

  /** The contested sets of the scans since the last reset of `r`, oldest first. */
  ghost function ScansSince(ticks: seq<Tick>, r: Name): seq<set<Name>>
    decreases |ticks|
  {
    if ticks == [] then []
    else
      match ticks[|ticks|-1]
      case Reset(q) => if q == r then [] else ScansSince(ticks[..|ticks|-1], r)
      case Scanned(s, xs, _) => ScansSince(ticks[..|ticks|-1], r) + [ContestedNow(s, xs)]
  }

  /** `k` is how many of the latest scans in a row had `r` contested. */
  ghost predicate IsStreak(h: seq<set<Name>>, r: Name, k: nat) {
    && k <= |h|
    && (forall i :: |h| - k <= i < |h| ==> r in h[i])
    && (k < |h| ==> r !in h[|h| - k - 1])
  }

  lemma StreakStep(h: seq<set<Name>>, now: set<Name>, r: Name, k: nat)
    requires IsStreak(h, r, k)
    ensures IsStreak(h + [now], r, if r in now then k + 1 else 0)
  {}

  /** A streak counts the consecutive latest scans, since its last reset, in which the resource was contested. */
  lemma {:induction false} StreakExact(threshold: nat, ticks: seq<Tick>, r: Name)
    ensures var w := Watch(threshold, ticks);
            && IsStreak(ScansSince(ticks, r), r, StreakIn(w.state.streaks, r))
            && (r in w.state.streaks ==> w.state.streaks[r] > 0)
    decreases |ticks|
  {
    hide Scan, Fresh, ContestedNow, IsStreak;
    NoStreak(r);
    if ticks != [] {
      var before := ticks[..|ticks|-1];
      StreakExact(threshold, before, r);
      var w := Watch(threshold, before);
      match ticks[|ticks|-1]
      case Reset(_) =>
      case Scanned(s, xs, round) =>
        ScanFresh(w.state, s, xs, round);
        StreakStep(ScansSince(before, r), ContestedNow(s, xs), r, StreakIn(w.state.streaks, r));
    }
  }

  lemma NoStreak(r: Name)
    ensures IsStreak([], r, 0)
  {}

  /** A contested deadlock is only reported at the threshold, for a resource contested in that very scan. */
  lemma {:induction false} FiresAtThreshold(d: State, s: Ledger.State, xs: seq<Challenge>, rs: seq<Name>, covered: set<Name>, round: nat, dl: Deadlock)
    requires dl in FireContested(d, s, xs, rs, covered, round).deadlocks
    ensures dl.kind == Contested && |dl.resources| == 1 && dl.resources[0] in rs && dl.resources[0] !in covered
    ensures StreakIn(d.streaks, dl.resources[0]) >= d.threshold
    decreases |rs|
  {
    hide ContestClaims, ContestAgents;
    var r := rs[0];
    var first := ContestedDeadlock(d, s, xs, r, round);
    if r in covered || StreakIn(d.streaks, r) < d.threshold || KeyOf(first) in d.fired {
      FiresAtThreshold(d, s, xs, rs[1..], covered, round, dl);
    } else if dl != first {
      FiresAtThreshold(Report(d, KeyOf(first), first), s, xs, rs[1..], covered, round, dl);
    }
  }

  /** The cycle loop reports nothing but cyclic groups, with their resources and claims. */
  lemma {:induction false} CyclesOnly(d: State, s: Ledger.State, ws: set<Wait>, gs: seq<seq<Name>>, round: nat)
    ensures forall dl :: dl in FireCycles(d, s, ws, gs, round).deadlocks ==>
              && dl.kind == Cycle && dl.agents in gs && dl.claims == SortedNats(GroupClaims(s, ws, dl.agents))
              && dl.resources == Ledger.SortedNames(GroupResources(s, ws, dl.agents))
    decreases |gs|
  {
    hide GroupClaims, GroupResources, SortedNats, Ledger.SortedNames;
    if gs != [] {
      var dl := CycleDeadlock(d, s, ws, gs[0], round);
      CyclesOnly(d, s, ws, gs[1..], round);
      CyclesOnly(Report(d, KeyOf(dl), dl), s, ws, gs[1..], round);
    }
  }

  /** In every history, a contested report means that many consecutive contested scans. */
  lemma ContestedMeansStreak(threshold: nat, ticks: seq<Tick>, s: Ledger.State, xs: seq<Challenge>, round: nat, dl: Deadlock)
    requires dl in Scan(Watch(threshold, ticks).state, s, xs, round).deadlocks && dl.kind == Contested
    ensures |dl.resources| == 1
    ensures exists k :: k >= threshold && IsStreak(ScansSince(ticks + [Scanned(s, xs, round)], dl.resources[0]), dl.resources[0], k)
  {
    var t := ticks + [Scanned(s, xs, round)];
    assert t[..|t|-1] == ticks;
    var d := Watch(threshold, ticks).state;
    NeverTwice(threshold, ticks);
    CyclesOnly(d, s, Waits(s), Cycles(WaitEdges(s, Waits(s))), round);
    var cyc := ScanCycles(d, s, round);
    CyclesFresh(d, s, Waits(s), Cycles(WaitEdges(s, Waits(s))), round);
    var now := ContestedNow(s, xs);
    FiresAtThreshold(Advance(cyc.state, now), s, xs, Ledger.SortedNames(now), cyc.resources, round, dl);
    ScanFresh(d, s, xs, round);
    StreakExact(threshold, t, dl.resources[0]);
  }
}
