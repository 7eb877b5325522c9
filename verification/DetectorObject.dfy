/** The deadlock detector object: each scan draws the wait-for graph, reports its cycles, and advances the streaks. */
module DetectorObject {
  import opened Order
  import opened Schemas
  import opened Graph
  import opened Detector
  import Tarjan
  import Ledger

  /** What an agent is involved in: resources and claims. */
  datatype Part = Part(resources: set<Name>, claims: set<nat>)

  function PartOf(parts: map<Name, Part>, a: Name): Part {
    if a in parts then parts[a] else Part({}, {})
  }

  function Join(parts: map<Name, Part>, a: Name, r: Name, cs: set<nat>): map<Name, Part> {
    parts[a := Part(PartOf(parts, a).resources + {r}, PartOf(parts, a).claims + cs)]
  }

  function EdgesWith(e: Edges, a: Name, h: Name): Edges {
    e[a := (if a in e then e[a] else {}) + {h}]
  }

  /** The parts of everyone, as far as the waits in `ws` tell. */
  ghost predicate Knows(s: Ledger.State, ws: set<Wait>, parts: map<Name, Part>) {
    forall a :: PartOf(parts, a) == Part(InvolvedResources(s, ws, a), InvolvedClaims(s, ws, a))
  }

  // ---------------------------------------------------------------- one more wait

  lemma EdgesMore(s: Ledger.State, ws: set<Wait>, w: Wait)
    requires w.0 in s.claims
    ensures WaitEdges(s, ws + {w}) == EdgesWith(WaitEdges(s, ws), Claimant(s, w), w.1)
  {
    hide Waiters, WaitedOn;
    var e, f, a := WaitEdges(s, ws + {w}), WaitEdges(s, ws), Claimant(s, w);
    WaitersMore(s, ws, w);
    forall x | x in e ensures x in EdgesWith(f, a, w.1) && e[x] == EdgesWith(f, a, w.1)[x] {
      WaitedMore(s, ws, w, x);
      if x !in f { NotWaiting(s, ws, x); }
    }
    assert EdgesWith(f, a, w.1).Keys == e.Keys;
  }

  lemma WaitersMore(s: Ledger.State, ws: set<Wait>, w: Wait)
    requires w.0 in s.claims
    ensures Waiters(s, ws + {w}) == Waiters(s, ws) + {Claimant(s, w)}
  {
    assert w in ws + {w};
    forall x | x in Waiters(s, ws) ensures x in Waiters(s, ws + {w}) {
      var v :| v in ws && v.0 in s.claims && Claimant(s, v) == x;
      assert v in ws + {w};
    }
  }

  lemma NotWaiting(s: Ledger.State, ws: set<Wait>, a: Name)
    requires a !in Waiters(s, ws)
    ensures WaitedOn(s, ws, a) == {}
  {}

  lemma WaitedMore(s: Ledger.State, ws: set<Wait>, w: Wait, x: Name)
    requires w.0 in s.claims
    ensures WaitedOn(s, ws + {w}, x) == WaitedOn(s, ws, x) + if x == Claimant(s, w) then {w.1} else {}
  {
    assert w in ws + {w};
    forall h | h in WaitedOn(s, ws, x) ensures h in WaitedOn(s, ws + {w}, x) {
      var v :| v in ws && v.0 in s.claims && Claimant(s, v) == x && v.1 == h;
      assert v in ws + {w};
    }
  }

  lemma ResourcesMore(s: Ledger.State, ws: set<Wait>, w: Wait, x: Name)
    requires w.0 in s.claims
    ensures InvolvedResources(s, ws + {w}, x)
         == InvolvedResources(s, ws, x) + if x == Claimant(s, w) || x == w.1 then {Wanted(s, w)} else {}
  {
    assert w in ws + {w};
    forall r | r in InvolvedResources(s, ws, x) ensures r in InvolvedResources(s, ws + {w}, x) {
      var v :| v in ws && v.0 in s.claims && (Claimant(s, v) == x || v.1 == x) && Wanted(s, v) == r;
      assert v in ws + {w};
    }
  }

  lemma ClaimsMore(s: Ledger.State, ws: set<Wait>, w: Wait, x: Name)
    requires w.0 in s.claims
    ensures InvolvedClaims(s, ws + {w}, x)
         == InvolvedClaims(s, ws, x) + (if x == Claimant(s, w) then {w.0} else {})
            + if x == w.1 then HolderClaims(s, Wanted(s, w), x) else {}
  {
    assert w in ws + {w};
    forall c | c in InvolvedClaims(s, ws, x) ensures c in InvolvedClaims(s, ws + {w}, x) {
      if v :| v in ws && v.0 in s.claims && Claimant(s, v) == x && v.0 == c { assert v in ws + {w}; }
      if v :| v in ws && v.0 in s.claims && v.1 == x && c in HolderClaims(s, Wanted(s, v), x) { assert v in ws + {w}; }
    }
  }

  lemma JoinIs(parts: map<Name, Part>, a: Name, r: Name, cs: set<nat>, x: Name)
    ensures PartOf(Join(parts, a, r, cs), x)
         == if x == a then Part(PartOf(parts, a).resources + {r}, PartOf(parts, a).claims + cs) else PartOf(parts, x)
  {}

  lemma PartsMore(s: Ledger.State, ws: set<Wait>, w: Wait, parts: map<Name, Part>)
    requires w.0 in s.claims && Claimant(s, w) != w.1 && Knows(s, ws, parts)
    ensures var mine := Join(parts, Claimant(s, w), Wanted(s, w), {w.0});
            Knows(s, ws + {w}, Join(mine, w.1, Wanted(s, w), HolderClaims(s, Wanted(s, w), w.1)))
  {
    hide InvolvedResources, InvolvedClaims, HolderClaims, Join, PartOf;
    var mine := Join(parts, Claimant(s, w), Wanted(s, w), {w.0});
    var both := Join(mine, w.1, Wanted(s, w), HolderClaims(s, Wanted(s, w), w.1));
    forall a ensures PartOf(both, a) == Part(InvolvedResources(s, ws + {w}, a), InvolvedClaims(s, ws + {w}, a)) {
      ResourcesMore(s, ws, w, a);
      ClaimsMore(s, ws, w, a);
      JoinIs(parts, Claimant(s, w), Wanted(s, w), {w.0}, a);
      JoinIs(mine, w.1, Wanted(s, w), HolderClaims(s, Wanted(s, w), w.1), a);
    }
  }

  lemma NoWaits(s: Ledger.State)
    ensures WaitEdges(s, {}) == map[] && Knows(s, {}, map[])
  {}

  // ---------------------------------------------------------------- drawing the graph

  /** The waits of the first blocked claims. */
  ghost function WaitsOf(s: Ledger.State, cs: seq<nat>): set<Wait> {
    set w | w in Waits(s) && w.0 in cs
  }

  ghost function WaitsFor(s: Ledger.State, c: nat, hs: seq<Name>): set<Wait>
    requires c in s.claims
  {
    set h | h in hs && h != s.claims[c].proposal.agent :: (c, h)
  }

  lemma NoWaitsFor(s: Ledger.State, c: nat)
    requires c in s.claims
    ensures WaitsFor(s, c, []) == {}
  {}

  lemma WaitsForMore(s: Ledger.State, c: nat, hs: seq<Name>, k: nat, ws: set<Wait>)
    requires c in s.claims && k < |hs|
    ensures ws + WaitsFor(s, c, hs[..k+1])
         == if hs[k] == s.claims[c].proposal.agent then ws + WaitsFor(s, c, hs[..k]) else ws + WaitsFor(s, c, hs[..k]) + {(c, hs[k])}
  {
    assert hs[..k+1] == hs[..k] + [hs[k]];
  }

  method AddWaits(s: Ledger.State, c: nat, e0: Edges, p0: map<Name, Part>, ghost ws: set<Wait>) returns (edges: Edges, parts: map<Name, Part>)
    requires c in s.claims && e0 == WaitEdges(s, ws) && Knows(s, ws, p0)
    ensures var hs := Ledger.SortedNames(HolderAgents(s, s.claims[c].proposal.resource));
            edges == WaitEdges(s, ws + WaitsFor(s, c, hs)) && Knows(s, ws + WaitsFor(s, c, hs), parts)
  {
    hide WaitEdges, Knows, HolderAgents, HolderClaims, Join, EdgesWith, WaitsFor;
    edges, parts := e0, p0;
    var res, claimant := s.claims[c].proposal.resource, s.claims[c].proposal.agent;
    var hs := Ledger.SortedNames(HolderAgents(s, res));
    ghost var now := ws;
    NoWaitsFor(s, c);
    assert ws + {} == ws;
    for k := 0 to |hs|
      invariant now == ws + WaitsFor(s, c, hs[..k]) && edges == WaitEdges(s, now) && Knows(s, now, parts)
    {
      WaitsForMore(s, c, hs, k, ws);
      if hs[k] != claimant {
        EdgesMore(s, now, (c, hs[k]));
        PartsMore(s, now, (c, hs[k]), parts);
        edges := EdgesWith(edges, claimant, hs[k]);
        parts := Join(Join(parts, claimant, res, {c}), hs[k], res, HolderClaims(s, res, hs[k]));
        now := now + {(c, hs[k])};
      }
    }
    assert hs[..|hs|] == hs;
  }

  lemma WaitsOfMore(s: Ledger.State, cs: seq<nat>, i: nat)
    requires i < |cs| && IsBlocked(s, cs[i])
    ensures WaitsOf(s, cs[..i+1]) == WaitsOf(s, cs[..i]) + WaitsFor(s, cs[i], Ledger.SortedNames(HolderAgents(s, s.claims[cs[i]].proposal.resource)))
  {
    hide HolderAgents;
    assert cs[..i+1] == cs[..i] + [cs[i]];
    var hs := Ledger.SortedNames(HolderAgents(s, s.claims[cs[i]].proposal.resource));
    forall w | w in WaitsFor(s, cs[i], hs) ensures w in WaitsOf(s, cs[..i+1]) { assert WaitsOn(s, w); }
    forall w | w in WaitsOf(s, cs[..i+1]) ensures w in WaitsOf(s, cs[..i]) + WaitsFor(s, cs[i], hs) {
      assert WaitsOn(s, w);
      if w.0 == cs[i] { assert w == (cs[i], w.1); }
    }
  }

  method DrawGraph(s: Ledger.State, blocked: seq<nat>) returns (edges: Edges, parts: map<Name, Part>)
    requires forall c :: c in blocked <==> IsBlocked(s, c)
    ensures edges == WaitEdges(s, Waits(s)) && Knows(s, Waits(s), parts)
  {
    hide WaitEdges, Knows, HolderAgents, Waits;
    edges, parts := map[], map[];
    NoWaits(s);
    ghost var ws: set<Wait> := {};
    for i := 0 to |blocked|
      invariant ws == WaitsOf(s, blocked[..i]) && edges == WaitEdges(s, ws) && Knows(s, ws, parts)
    {
      assert blocked[i] in blocked;
      WaitsOfMore(s, blocked, i);
      edges, parts := AddWaits(s, blocked[i], edges, parts, ws);
      ws := WaitsOf(s, blocked[..i+1]);
    }
    assert blocked[..|blocked|] == blocked;
    assert WaitsOf(s, blocked) == Waits(s);
  }

  // ---------------------------------------------------------------- contested resources

  /** Who is in a contest of a resource, and over which claims. */
  datatype Entry = Entry(agents: set<Name>, claims: set<nat>)

  function EntryOf(entries: map<Name, Entry>, r: Name): Entry {
    if r in entries then entries[r] else Entry({}, {})
  }

  function Enter(entries: map<Name, Entry>, r: Name, agents: set<Name>, claims: set<nat>): map<Name, Entry> {
    entries[r := Entry(EntryOf(entries, r).agents + agents, EntryOf(entries, r).claims + claims)]
  }

  function Resource(s: Ledger.State, c: nat): Name
    requires c in s.claims
  {
    s.claims[c].proposal.resource
  }

  function Blocking(s: Ledger.State, cs: seq<nat>, r: Name): set<nat> {
    set c | c in cs && c in s.claims && Resource(s, c) == r
  }

  function Claimants(s: Ledger.State, bs: set<nat>): set<Name> {
    set c | c in bs && c in s.claims :: s.claims[c].proposal.agent
  }

  function Challengers(ys: set<Challenge>): set<Name> {
    set y | y in ys :: y.agent
  }

  function Targets(ys: set<Challenge>): set<nat> {
    set y | y in ys :: y.target
  }

  function Owners(s: Ledger.State, ys: set<Challenge>): set<Name> {
    set y | y in ys && y.target in s.claims :: s.claims[y.target].proposal.agent
  }

  /** The contest of `r` as far as these blocked claims on it and these challenges of it tell. */
  function EntryFrom(s: Ledger.State, r: Name, bs: set<nat>, ys: set<Challenge>): Entry {
    Entry(Claimants(s, bs) + (if bs != {} then HolderAgents(s, r) else {}) + Challengers(ys) + Owners(s, ys),
          bs + (if bs != {} then ClaimsHolding(s, r) else {}) + Targets(ys))
  }

  ghost predicate Enters(s: Ledger.State, cs: seq<nat>, xs: seq<Challenge>, entries: map<Name, Entry>) {
    && (forall r :: EntryOf(entries, r) == EntryFrom(s, r, Blocking(s, cs, r), ChallengedOn(s, xs, r)))
    && (forall r :: r in entries <==> Blocking(s, cs, r) != {} || ChallengedOn(s, xs, r) != {})
  }

  lemma EnterNone(s: Ledger.State)
    ensures Enters(s, [], [], map[])
  {}

  lemma OneMoreBlocked(s: Ledger.State, r: Name, bs: set<nat>, ys: set<Challenge>, c: nat)
    requires c in s.claims
    ensures var e := EntryFrom(s, r, bs, ys);
            EntryFrom(s, r, bs + {c}, ys) == Entry(e.agents + ({s.claims[c].proposal.agent} + HolderAgents(s, r)), e.claims + ({c} + ClaimsHolding(s, r)))
  {
    hide HolderAgents, ClaimsHolding, Challengers, Owners, Targets;
    assert c in bs + {c};
    assert Claimants(s, bs + {c}) == Claimants(s, bs) + {s.claims[c].proposal.agent};
    hide Claimants;
  }

  lemma OneMoreChallenge(s: Ledger.State, r: Name, bs: set<nat>, ys: set<Challenge>, x: Challenge)
    requires x.target in s.claims
    ensures var e := EntryFrom(s, r, bs, ys);
            EntryFrom(s, r, bs, ys + {x}) == Entry(e.agents + {x.agent, s.claims[x.target].proposal.agent}, e.claims + {x.target})
  {
    hide HolderAgents, ClaimsHolding, Claimants;
    assert x in ys + {x};
    assert Challengers(ys + {x}) == Challengers(ys) + {x.agent};
    assert Targets(ys + {x}) == Targets(ys) + {x.target};
    assert Owners(s, ys + {x}) == Owners(s, ys) + {s.claims[x.target].proposal.agent};
    hide Challengers, Targets, Owners;
  }

  lemma EnterAt(entries: map<Name, Entry>, r: Name, agents: set<Name>, claims: set<nat>, q: Name)
    ensures var more := Enter(entries, r, agents, claims);
            && EntryOf(more, q) == (if q == r then Entry(EntryOf(entries, r).agents + agents, EntryOf(entries, r).claims + claims) else EntryOf(entries, q))
            && (q in more <==> q == r || q in entries)
  {}

  lemma EnterBlocked(s: Ledger.State, cs: seq<nat>, i: nat, entries: map<Name, Entry>)
    requires i < |cs| && cs[i] in s.claims && Enters(s, cs[..i], [], entries)
    ensures var (c, r) := (cs[i], Resource(s, cs[i]));
            Enters(s, cs[..i+1], [], Enter(entries, r, {s.claims[c].proposal.agent} + HolderAgents(s, r), {c} + ClaimsHolding(s, r)))
  {
    hide HolderAgents, ClaimsHolding, ChallengedOn, EntryFrom;
    var c, r := cs[i], Resource(s, cs[i]);
    assert cs[..i+1] == cs[..i] + [c];
    forall q ensures Blocking(s, cs[..i+1], q) == if q == r then Blocking(s, cs[..i], q) + {c} else Blocking(s, cs[..i], q) {}
    hide Blocking;
    assert c in Blocking(s, cs[..i], r) + {c};
    OneMoreBlocked(s, r, Blocking(s, cs[..i], r), ChallengedOn(s, [], r), c);
    forall q { EnterAt(entries, r, {s.claims[c].proposal.agent} + HolderAgents(s, r), {c} + ClaimsHolding(s, r), q); }
    hide Enter, EntryOf;
  }

  lemma ChallengedMore(s: Ledger.State, xs: seq<Challenge>, i: nat)
    requires i < |xs|
    ensures forall q :: ChallengedOn(s, xs[..i+1], q)
                     == if Live(s, xs[i]) && Resource(s, xs[i].target) == q then ChallengedOn(s, xs[..i], q) + {xs[i]} else ChallengedOn(s, xs[..i], q)
  {
    assert xs[..i+1] == xs[..i] + [xs[i]];
  }

  lemma EnterChallenge(s: Ledger.State, cs: seq<nat>, xs: seq<Challenge>, i: nat, entries: map<Name, Entry>)
    requires i < |xs| && Enters(s, cs, xs[..i], entries)
    ensures var x := xs[i];
            Enters(s, cs, xs[..i+1],
                   if Live(s, x) then Enter(entries, Resource(s, x.target), {x.agent, s.claims[x.target].proposal.agent}, {x.target}) else entries)
  {
    hide HolderAgents, ClaimsHolding, Blocking, EntryFrom, ChallengedOn;
    var x := xs[i];
    ChallengedMore(s, xs, i);
    if Live(s, x) {
      var r := Resource(s, x.target);
      assert x in ChallengedOn(s, xs[..i], r) + {x};
      OneMoreChallenge(s, r, Blocking(s, cs, r), ChallengedOn(s, xs[..i], r), x);
      forall q { EnterAt(entries, r, {x.agent, s.claims[x.target].proposal.agent}, {x.target}, q); }
    }
    hide Enter, EntryOf;
  }

  lemma EntersAll(s: Ledger.State, blocked: seq<nat>, xs: seq<Challenge>, entries: map<Name, Entry>)
    requires (forall c :: c in blocked <==> IsBlocked(s, c)) && Enters(s, blocked, xs, entries)
    ensures entries.Keys == ContestedNow(s, xs)
    ensures forall r :: r in entries ==> entries[r] == Entry(ContestAgents(s, xs, r), ContestClaims(s, xs, r))
  {
    hide HolderAgents, ClaimsHolding, EntryFrom, ContestedNow, ContestAgents, ContestClaims, ChallengedOn;
    forall r ensures Blocking(s, blocked, r) == BlockedOn(s, r) {}
    hide Blocking, BlockedOn;
    forall r ensures r in entries <==> r in ContestedNow(s, xs) { EntersNow(s, xs, r); }
    forall r | r in entries ensures entries[r] == Entry(ContestAgents(s, xs, r), ContestClaims(s, xs, r)) {
      WholeEntry(s, xs, r);
      assert EntryOf(entries, r) == EntryFrom(s, r, Blocking(s, blocked, r), ChallengedOn(s, xs, r));
    }
  }

  lemma WholeEntry(s: Ledger.State, xs: seq<Challenge>, r: Name)
    ensures EntryFrom(s, r, BlockedOn(s, r), ChallengedOn(s, xs, r)) == Entry(ContestAgents(s, xs, r), ContestClaims(s, xs, r))
  {
    hide HolderAgents, ClaimsHolding;
    var bs, ys := BlockedOn(s, r), ChallengedOn(s, xs, r);
    assert Claimants(s, bs) == set c | c in bs :: s.claims[c].proposal.agent;
    assert Owners(s, ys) == set y | y in ys :: s.claims[y.target].proposal.agent;
  }

  lemma EntersNow(s: Ledger.State, xs: seq<Challenge>, r: Name)
    ensures r in ContestedNow(s, xs) <==> BlockedOn(s, r) != {} || ChallengedOn(s, xs, r) != {}
  {
    if r in ContestedNow(s, xs) {
      if c :| c in s.claims && IsBlocked(s, c) && s.claims[c].proposal.resource == r { assert c in BlockedOn(s, r); }
      if x :| x in xs && Live(s, x) && s.claims[x.target].proposal.resource == r { assert x in ChallengedOn(s, xs, r); }
    }
    if c :| c in BlockedOn(s, r) { assert s.claims[c].proposal.resource == r; }
    if x :| x in ChallengedOn(s, xs, r) { assert s.claims[x.target].proposal.resource == r; }
  }

  /** `contested_now`. */
  method GatherContested(s: Ledger.State, blocked: seq<nat>, xs: seq<Challenge>) returns (entries: map<Name, Entry>)
    requires forall c :: c in blocked <==> IsBlocked(s, c)
    ensures entries.Keys == ContestedNow(s, xs)
    ensures forall r :: r in entries ==> entries[r] == Entry(ContestAgents(s, xs, r), ContestClaims(s, xs, r))
  {
    hide Enters, HolderAgents, ClaimsHolding, ContestAgents, ContestClaims, ContestedNow, Enter;
    entries := map[];
    EnterNone(s);
    for i := 0 to |blocked|
      invariant Enters(s, blocked[..i], [], entries)
    {
      assert blocked[i] in blocked;
      var r := Resource(s, blocked[i]);
      EnterBlocked(s, blocked, i, entries);
      entries := Enter(entries, r, {s.claims[blocked[i]].proposal.agent} + HolderAgents(s, r), {blocked[i]} + ClaimsHolding(s, r));
    }
    assert blocked[..|blocked|] == blocked;
    assert xs[..0] == [];
    for i := 0 to |xs|
      invariant Enters(s, blocked, xs[..i], entries)
    {
      EnterChallenge(s, blocked, xs, i, entries);
      if Live(s, xs[i]) {
        entries := Enter(entries, Resource(s, xs[i].target), {xs[i].agent, s.claims[xs[i].target].proposal.agent}, {xs[i].target});
      }
    }
    assert xs[..|xs|] == xs;
    EntersAll(s, blocked, xs, entries);
  }

  // ---------------------------------------------------------------- the detector

  class DeadlockDetector {
    const threshold: nat
    var streaks: map<Name, nat>
    var fired: set<Key>
    var last: nat

    function Value(): State
      reads this
    {
      State(threshold, streaks, fired, last)
    }

    constructor (threshold: nat)
      ensures Value() == Start(threshold)
    {
      this.threshold := threshold;
      streaks, fired, last := map[], {}, 0;
    }

    /** After a ruling touches the resource its streak starts again. */
    method Reset(r: Name)
      modifies this`streaks
      ensures Value() == ResetResource(old(Value()), r)
    {
      streaks := streaks - {r};
    }

    /** Each component of the graph, unless its key has fired. */
    method FireAll(s: Ledger.State, comps: seq<seq<Name>>, parts: map<Name, Part>, ghost ws: set<Wait>, round: nat)
        returns (ds: seq<Deadlock>, covered: set<Name>)
      requires Knows(s, ws, parts)
      modifies this`fired, this`last
      ensures Found(Value(), ds, covered) == FireCycles(old(Value()), s, ws, comps, round)
    {
      hide Knows, GroupResources, GroupClaims, FireCycles;
      ds, covered := [], {};
      CyclesStart(Value(), s, ws, comps, round);
      for i := 0 to |comps|
        invariant CyclesFrom(old(Value()), s, ws, comps, round, i, Value(), ds, covered)
      {
        hide CyclesFrom;
        var comp := comps[i];
        GroupParts(s, ws, parts, comp);
        var resources := Ledger.SortedNames(UnionResources(parts, comp));
        var dl := Deadlock(last + 1, Cycle, round, resources, comp, SortedNats(UnionClaims(parts, comp)));
        assert dl == CycleDeadlock(Value(), s, ws, comp, round);
        CyclesNext(old(Value()), s, ws, comps, round, i, Value(), ds, covered);
        if CycleKey(dl.agents, dl.claims) !in fired {
          fired := fired + {CycleKey(dl.agents, dl.claims)};
          last := last + 1;
          ds := ds + [dl];
          covered := covered + Elems(resources);
        }
      }
      CyclesEnd(old(Value()), s, ws, comps, round, Value(), ds, covered);
    }

    /** Forgets the streaks of resources that are not contested now. */
    method DropStreaks(now: set<Name>)
      modifies this`streaks
      ensures Counted(streaks, old(streaks), now, [])
    {
      streaks := map r | r in streaks && r in now :: streaks[r];
    }

    method JudgeOne(s: Ledger.State, xs: seq<Challenge>, entries: map<Name, Entry>, covered: set<Name>, round: nat,
                    ghost start: State, ghost before: map<Name, nat>, rs: seq<Name>, i: nat, ghost ds: seq<Deadlock>) returns (more: seq<Deadlock>)
      requires forall r :: r in entries ==> entries[r] == Entry(ContestAgents(s, xs, r), ContestClaims(s, xs, r))
      requires i < |rs| && NoDup(rs) && (forall r :: r in rs <==> r in entries) && start.threshold == threshold
      requires start.streaks == Advance(State(threshold, before, {}, 0), entries.Keys).streaks
      requires StreaksFrom(start, s, xs, rs, covered, round, i, Value().(streaks := start.streaks), ds)
      requires Counted(streaks, before, entries.Keys, rs[..i])
      modifies this`streaks, this`fired, this`last
      ensures StreaksFrom(start, s, xs, rs, covered, round, i + 1, Value().(streaks := start.streaks), ds + more)
      ensures Counted(streaks, before, entries.Keys, rs[..i+1])
    {
      hide ContestAgents, ContestClaims, FireContested, StreaksFrom, Counted, StreakIn, Advance, ContestedDeadlock, Report, Judged;
      var r := rs[i];
      PrefixNext(rs, i);
      CountedNext(streaks, before, entries.Keys, rs[..i], r);
      CountedRight(State(threshold, before, {}, 0), entries.Keys, r);
      var streak := StreakIn(streaks, r) + 1;
      ghost var d := Value();
      streaks := streaks[r := streak];
      ghost var v := Value();
      assert d.(streaks := start.streaks) == v.(streaks := start.streaks);
      more := FireOne(s, xs, r, entries[r], streak, covered, round);
      StreaksStep(start, s, xs, rs, covered, round, i, v, Value(), streak, ds, more);
    }

    /** Reports the resource if its streak is at the threshold and neither a cycle nor an earlier report covers it. */
    method FireOne(s: Ledger.State, xs: seq<Challenge>, r: Name, entry: Entry, streak: nat, covered: set<Name>, round: nat) returns (ds: seq<Deadlock>)
      requires entry == Entry(ContestAgents(s, xs, r), ContestClaims(s, xs, r))
      modifies this`fired, this`last
      ensures Judged(old(Value()), Value(), s, xs, r, streak, covered, round, ds)
    {
      hide ContestAgents, ContestClaims;
      ds := [];
      var claims := SortedNats(entry.claims);
      if r !in covered && streak >= threshold && ContestedKey(r, claims) !in fired {
        fired := fired + {ContestedKey(r, claims)};
        last := last + 1;
        ds := [Deadlock(last, Contested, round, [r], Ledger.SortedNames(entry.agents), claims)];
      }
    }

    /** Streaks advance one resource at a time, and each is judged as it does. */
    method FireStreaks(s: Ledger.State, xs: seq<Challenge>, entries: map<Name, Entry>, covered: set<Name>, round: nat) returns (ds: seq<Deadlock>)
      requires entries.Keys == ContestedNow(s, xs)
      requires forall r :: r in entries ==> entries[r] == Entry(ContestAgents(s, xs, r), ContestClaims(s, xs, r))
      modifies this`streaks, this`fired, this`last
      ensures var f := FireContested(Advance(old(Value()), ContestedNow(s, xs)), s, xs, Ledger.SortedNames(ContestedNow(s, xs)), covered, round);
              Value() == f.state && ds == f.deadlocks
    {
      hide ContestAgents, ContestClaims, ContestedNow, FireContested, StreaksFrom, Counted, StreakIn, Advance, ContestedDeadlock, Report, Judged;
      ds := [];
      ghost var now := ContestedNow(s, xs);
      ghost var start := Advance(Value(), now);
      AdvanceKeeps(Value(), now);
      DropStreaks(entries.Keys);
      var rs := Ledger.SortedNames(entries.Keys);
      StreaksStart(start, s, xs, rs, covered, round);
      for i := 0 to |rs|
        invariant StreaksFrom(start, s, xs, rs, covered, round, i, Value().(streaks := start.streaks), ds)
        invariant Counted(streaks, old(streaks), now, rs[..i])
      {
        var more := JudgeOne(s, xs, entries, covered, round, start, old(streaks), rs, i, ds);
        ds := ds + more;
      }
      assert rs[..|rs|] == rs;
      CountedEnd(streaks, old(Value()), now, rs);
      StreaksEnd(start, s, xs, rs, covered, round, Value(), ds);
    }

    /** One scan: cycles of the wait-for graph first, then contested streaks. */
    method Scan(s: Ledger.State, xs: seq<Challenge>, round: nat) returns (ds: seq<Deadlock>)
      modifies this
      ensures var f := Detector.Scan(old(Value()), s, xs, round); Value() == f.state && ds == f.deadlocks
    {
      hide WaitEdges, Waits, Cycles, FireCycles, FireContested, ContestedNow, ContestAgents, ContestClaims, Knows;
      var blocked := Ledger.IdsWith(s, Blocked);
      var edges, parts := DrawGraph(s, blocked);
      var comps := Tarjan.FindCycles(edges);
      var covered;
      ds, covered := FireAll(s, comps, parts, Waits(s), round);
      var entries := GatherContested(s, blocked, xs);
      var more := FireStreaks(s, xs, entries, covered, round);
      ds := ds + more;
    }
  }

  // ---------------------------------------------------------------- the loops so far

  function UnionResources(parts: map<Name, Part>, g: seq<Name>): set<Name> {
    set a, r | a in g && r in PartOf(parts, a).resources :: r
  }

  function UnionClaims(parts: map<Name, Part>, g: seq<Name>): set<nat> {
    set a, c | a in g && c in PartOf(parts, a).claims :: c
  }

  lemma GroupParts(s: Ledger.State, ws: set<Wait>, parts: map<Name, Part>, g: seq<Name>)
    requires Knows(s, ws, parts)
    ensures UnionResources(parts, g) == GroupResources(s, ws, g) && UnionClaims(parts, g) == GroupClaims(s, ws, g)
  {
    hide InvolvedResources, InvolvedClaims, PartOf;
  }

  /** What is left of the cycle loop after `i` components, on top of what it has reported. */
  ghost predicate CyclesFrom(d0: State, s: Ledger.State, ws: set<Wait>, gs: seq<seq<Name>>, round: nat, i: nat,
                             d: State, ds: seq<Deadlock>, covered: set<Name>)
    requires i <= |gs|
  {
    var rest := FireCycles(d, s, ws, gs[i..], round);
    FireCycles(d0, s, ws, gs, round) == Found(rest.state, ds + rest.deadlocks, covered + rest.resources)
  }

  lemma CyclesStart(d: State, s: Ledger.State, ws: set<Wait>, gs: seq<seq<Name>>, round: nat)
    ensures CyclesFrom(d, s, ws, gs, round, 0, d, [], {})
  {
    hide FireCycles;
    assert gs[0..] == gs;
    var f := FireCycles(d, s, ws, gs, round);
    assert [] + f.deadlocks == f.deadlocks && {} + f.resources == f.resources;
  }

  lemma CyclesNext(d0: State, s: Ledger.State, ws: set<Wait>, gs: seq<seq<Name>>, round: nat, i: nat,
                   d: State, ds: seq<Deadlock>, covered: set<Name>)
    requires i < |gs| && CyclesFrom(d0, s, ws, gs, round, i, d, ds, covered)
    ensures var dl := CycleDeadlock(d, s, ws, gs[i], round);
            if CycleKey(dl.agents, dl.claims) in d.fired then CyclesFrom(d0, s, ws, gs, round, i + 1, d, ds, covered)
            else CyclesFrom(d0, s, ws, gs, round, i + 1, Report(d, CycleKey(dl.agents, dl.claims), dl), ds + [dl], covered + Elems(dl.resources))
  {
    hide GroupResources, GroupClaims;
    var dl := CycleDeadlock(d, s, ws, gs[i], round);
    assert gs[i..][0] == gs[i] && gs[i..][1..] == gs[i+1..];
    if CycleKey(dl.agents, dl.claims) !in d.fired {
      var rest := FireCycles(Report(d, KeyOf(dl), dl), s, ws, gs[i+1..], round);
      assert ds + ([dl] + rest.deadlocks) == (ds + [dl]) + rest.deadlocks;
      assert covered + (Elems(dl.resources) + rest.resources) == (covered + Elems(dl.resources)) + rest.resources;
    }
  }

  lemma CyclesEnd(d0: State, s: Ledger.State, ws: set<Wait>, gs: seq<seq<Name>>, round: nat, d: State, ds: seq<Deadlock>, covered: set<Name>)
    requires CyclesFrom(d0, s, ws, gs, round, |gs|, d, ds, covered)
    ensures FireCycles(d0, s, ws, gs, round) == Found(d, ds, covered)
  {
    assert ds + [] == ds && covered + {} == covered;
  }

  /** The streaks once those in `done` have been advanced and the uncontested ones dropped. */
  ghost predicate Counted(m: map<Name, nat>, before: map<Name, nat>, now: set<Name>, done: seq<Name>) {
    && (forall r :: r in m <==> r in done || (r in now && r in before))
    && (forall r :: r in m ==> m[r] == if r in done then StreakIn(before, r) + 1 else StreakIn(before, r))
  }

  lemma CountedNext(m: map<Name, nat>, before: map<Name, nat>, now: set<Name>, done: seq<Name>, r: Name)
    requires Counted(m, before, now, done) && r in now && r !in done
    ensures Counted(m[r := StreakIn(m, r) + 1], before, now, done + [r]) && StreakIn(m, r) == StreakIn(before, r)
  {}

  lemma CountedRight(d: State, now: set<Name>, r: Name)
    requires r in now
    ensures r in Advance(d, now).streaks && Advance(d, now).streaks[r] == StreakIn(d.streaks, r) + 1
    ensures StreakIn(Advance(d, now).streaks, r) == StreakIn(d.streaks, r) + 1
  {}

  lemma AdvanceKeeps(d: State, now: set<Name>)
    ensures Advance(d, now) == d.(streaks := Advance(d, now).streaks)
    ensures Advance(d, now).streaks == Advance(State(d.threshold, d.streaks, {}, 0), now).streaks
  {}

  lemma PrefixNext(rs: seq<Name>, i: nat)
    requires i < |rs| && NoDup(rs)
    ensures rs[..i+1] == rs[..i] + [rs[i]] && rs[i] in rs && rs[i] !in rs[..i]
  {}

  /** What judging one contested resource does. */
  ghost predicate Judged(d: State, e: State, s: Ledger.State, xs: seq<Challenge>, r: Name, streak: nat, covered: set<Name>, round: nat, ds: seq<Deadlock>) {
    var dl := ContestedDeadlock(d, s, xs, r, round);
    if r in covered || streak < d.threshold || ContestedKey(r, dl.claims) in d.fired
    then e == d && ds == []
    else e == Report(d, ContestedKey(r, dl.claims), dl) && ds == [dl]
  }

  lemma StreaksStep(d0: State, s: Ledger.State, xs: seq<Challenge>, rs: seq<Name>, covered: set<Name>, round: nat, i: nat,
                    d: State, e: State, streak: nat, ds: seq<Deadlock>, more: seq<Deadlock>)
    requires i < |rs| && StreaksFrom(d0, s, xs, rs, covered, round, i, d.(streaks := d0.streaks), ds)
    requires streak == StreakIn(d0.streaks, rs[i]) && Judged(d, e, s, xs, rs[i], streak, covered, round, more)
    ensures StreaksFrom(d0, s, xs, rs, covered, round, i + 1, e.(streaks := d0.streaks), ds + more)
  {
    hide ContestAgents, ContestClaims, StreaksFrom;
    var at := d.(streaks := d0.streaks);
    StreaksNext(d0, s, xs, rs, covered, round, i, at, ds);
    assert ContestedDeadlock(at, s, xs, rs[i], round) == ContestedDeadlock(d, s, xs, rs[i], round);
    assert ds + [] == ds;
  }

  lemma CountedEnd(m: map<Name, nat>, d: State, now: set<Name>, done: seq<Name>)
    requires Counted(m, d.streaks, now, done) && forall r :: r in done <==> r in now
    ensures m == Advance(d, now).streaks
  {}

  ghost predicate StreaksFrom(d0: State, s: Ledger.State, xs: seq<Challenge>, rs: seq<Name>, covered: set<Name>, round: nat, i: nat,
                              d: State, ds: seq<Deadlock>)
    requires i <= |rs|
  {
    var rest := FireContested(d, s, xs, rs[i..], covered, round);
    var all := FireContested(d0, s, xs, rs, covered, round);
    all.state == rest.state && all.deadlocks == ds + rest.deadlocks
  }

  lemma StreaksStart(d: State, s: Ledger.State, xs: seq<Challenge>, rs: seq<Name>, covered: set<Name>, round: nat)
    ensures StreaksFrom(d, s, xs, rs, covered, round, 0, d, [])
  {
    hide FireContested;
    assert rs[0..] == rs;
    var f := FireContested(d, s, xs, rs, covered, round);
    assert [] + f.deadlocks == f.deadlocks;
  }

  lemma StreaksNext(d0: State, s: Ledger.State, xs: seq<Challenge>, rs: seq<Name>, covered: set<Name>, round: nat, i: nat, d: State, ds: seq<Deadlock>)
    requires i < |rs| && StreaksFrom(d0, s, xs, rs, covered, round, i, d, ds)
    ensures var (r, dl) := (rs[i], ContestedDeadlock(d, s, xs, rs[i], round));
            if r in covered || StreakIn(d.streaks, r) < d.threshold || ContestedKey(r, dl.claims) in d.fired
            then StreaksFrom(d0, s, xs, rs, covered, round, i + 1, d, ds)
            else StreaksFrom(d0, s, xs, rs, covered, round, i + 1, Report(d, ContestedKey(r, dl.claims), dl), ds + [dl])
  {
    hide ContestAgents, ContestClaims, SortedNats, Ledger.SortedNames;
    var r, dl := rs[i], ContestedDeadlock(d, s, xs, rs[i], round);
    assert rs[i..][0] == rs[i] && rs[i..][1..] == rs[i+1..];
    if !(r in covered || StreakIn(d.streaks, r) < d.threshold || ContestedKey(r, dl.claims) in d.fired) {
      var rest := FireContested(Report(d, KeyOf(dl), dl), s, xs, rs[i+1..], covered, round);
      assert ds + ([dl] + rest.deadlocks) == (ds + [dl]) + rest.deadlocks;
    }
  }

  lemma StreaksEnd(d0: State, s: Ledger.State, xs: seq<Challenge>, rs: seq<Name>, covered: set<Name>, round: nat, d: State, ds: seq<Deadlock>)
    requires StreaksFrom(d0, s, xs, rs, covered, round, |rs|, d, ds)
    ensures FireContested(d0, s, xs, rs, covered, round).state == d && FireContested(d0, s, xs, rs, covered, round).deadlocks == ds
  {
    assert ds + [] == ds;
  }
}
