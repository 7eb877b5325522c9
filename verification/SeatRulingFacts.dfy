/** A ruling on one blocked seat claim always executes, and bumps as few, and as unprotected, as it can. */
module SeatRulingFacts {
  import opened Order
  import opened Schemas
  import opened LedgerFacts
  import opened Rounds
  import opened Scenario
  import opened Fiat
  import opened SeatRuling
  import L = Ledger
  import D = Detector

  /** The view shows this ledger. */
  ghost predicate Shown(view: AgentView, s: L.State) {
    && view.resources == ResourcesView(s)
    && view.granted == ClaimsView(s, L.IdsWith(s, Granted))
    && view.blocked == ClaimsView(s, L.IdsWith(s, Blocked))
  }

  lemma MediatorSees(w: World, round: nat, ps: seq<Position>, ds: seq<Deadlock>)
    ensures Shown(MediatorViewFor(w, round, ps, ds).base, w.ledger)
  {}

  // ---------------------------------------------------------------- who is a candidate

  ghost predicate DistinctPids(cs: seq<Candidate>) {
    forall i, j :: 0 <= i < j < |cs| ==> cs[i].pid != cs[j].pid
  }

  predicate Weighed(d: Desk, pax: Roster, bc: ClaimView, gc: ClaimView, c: Candidate) {
    Consider(d, pax, bc, gc, c.pid) == [c]
  }

  lemma ConsiderIs(d: Desk, pax: Roster, bc: ClaimView, gc: ClaimView, pid: Name, c: Candidate)
    ensures c in Consider(d, pax, bc, gc, pid) <==> c.pid == pid && Weighed(d, pax, bc, gc, c)
    ensures |Consider(d, pax, bc, gc, pid)| <= 1
  {
    hide FirstAlternative, BestRank, Rank;
  }

  lemma {:induction false} ConsiderAllIs(d: Desk, pax: Roster, bc: ClaimView, gc: ClaimView, pids: seq<Name>)
    ensures forall c :: c in ConsiderAll(d, pax, bc, gc, pids) <==> c.pid in pids && Weighed(d, pax, bc, gc, c)
    ensures NoDup(pids) ==> DistinctPids(ConsiderAll(d, pax, bc, gc, pids))
    decreases |pids|
  {
    hide Consider, Weighed;
    if pids != [] {
      var rest, pid := pids[..|pids|-1], pids[|pids|-1];
      ConsiderAllIs(d, pax, bc, gc, rest);
      forall c ensures c in Consider(d, pax, bc, gc, pid) <==> c.pid == pid && Weighed(d, pax, bc, gc, c) {
        ConsiderIs(d, pax, bc, gc, pid, c);
      }
      var a, b := ConsiderAll(d, pax, bc, gc, rest), Consider(d, pax, bc, gc, pid);
      ConsiderIs(d, pax, bc, gc, pid, Candidate(0, "", 0, ""));
      assert forall x :: x in pids <==> x in rest || x == pid;
      if NoDup(pids) { PidsApart(a, b); }
    }
  }

  lemma PidsApart(a: seq<Candidate>, b: seq<Candidate>)
    requires DistinctPids(a) && DistinctPids(b) && forall x, y :: x in a && y in b ==> x.pid != y.pid
    ensures DistinctPids(a + b)
  {
    var c := a + b;
    forall i, j | 0 <= i < j < |c| ensures c[i].pid != c[j].pid {
      assert c[i] == if i < |a| then a[i] else b[i - |a|];
      assert c[j] == if j < |a| then a[j] else b[j - |a|];
    }
  }

  ghost predicate Offered(d: Desk, pax: Roster, bc: ClaimView, granted: seq<ClaimView>, c: Candidate) {
    exists gc :: gc in granted && Bumpable(bc, gc) && c.pid in gc.holders && Weighed(d, pax, bc, gc, c)
  }

  /** Nobody is listed twice, and no two bumpable claims share a holder. */
  ghost predicate Separate(bc: ClaimView, granted: seq<ClaimView>) {
    && (forall gc :: gc in granted ==> NoDup(gc.holders))
    && (forall i, j, b :: 0 <= i < j < |granted| && Bumpable(bc, granted[i]) && Bumpable(bc, granted[j]) && b in granted[i].holders
          ==> b !in granted[j].holders)
  }

  lemma {:induction false} GatherIs(d: Desk, pax: Roster, bc: ClaimView, granted: seq<ClaimView>)
    requires Separate(bc, granted)
    ensures forall c :: c in Gather(d, pax, bc, granted) <==> Offered(d, pax, bc, granted, c)
    ensures DistinctPids(Gather(d, pax, bc, granted))
    decreases |granted|
  {
    hide Weighed, Bumpable, ConsiderAll, SortBy;
    if granted != [] {
      var n := |granted| - 1;
      var rest, gc := granted[..n], granted[n];
      GatherIs(d, pax, bc, rest);
      var pids := SortBy(gc.holders, NameGe);
      SortByElems(gc.holders, NameGe);
      ConsiderAllIs(d, pax, bc, gc, pids);
      assert granted == rest + [gc];
      GatherOne(d, pax, bc, granted, rest, gc);
    }
  }

  lemma GatherOne(d: Desk, pax: Roster, bc: ClaimView, granted: seq<ClaimView>, rest: seq<ClaimView>, gc: ClaimView)
    requires granted == rest + [gc] && Separate(bc, granted) && DistinctPids(Gather(d, pax, bc, rest))
    requires forall c :: c in Gather(d, pax, bc, rest) <==> Offered(d, pax, bc, rest, c)
    requires var more := ConsiderAll(d, pax, bc, gc, SortBy(gc.holders, NameGe));
             DistinctPids(more) && forall c :: c in more <==> c.pid in gc.holders && Weighed(d, pax, bc, gc, c)
    ensures forall c :: c in Gather(d, pax, bc, granted) <==> Offered(d, pax, bc, granted, c)
    ensures DistinctPids(Gather(d, pax, bc, granted))
  {
    hide Weighed, Bumpable, ConsiderAll, SortBy;
    var a, b := Gather(d, pax, bc, rest), ConsiderAll(d, pax, bc, gc, SortBy(gc.holders, NameGe));
    assert granted[..|granted|-1] == rest && granted[|granted|-1] == gc;
    if Bumpable(bc, gc) {
      forall x, y | x in a && y in b ensures x.pid != y.pid {
        var g :| g in rest && Bumpable(bc, g) && x.pid in g.holders;
        var i :| 0 <= i < |rest| && rest[i] == g;
        assert granted[i] == g;
      }
      PidsApart(a, b);
    }
    assert forall g :: g in granted <==> g in rest || g == gc;
  }

  // ---------------------------------------------------------------- candidates on the ledger

  lemma HolderCell(s: L.State, id: nat, b: Name)
    requires Sound(s) && id in s.claims
    ensures b in L.Holders(s.allocs, id) <==>
            (s.claims[id].proposal.resource, b) in s.allocs && s.allocs[(s.claims[id].proposal.resource, b)].claim == id
  {
    hide Within, Exclusive, Filed;
    if b in L.Holders(s.allocs, id) {
      var k :| k in s.allocs.Keys && s.allocs[k].claim == id && k.1 == b;
      assert k == (k.0, b);
    }
  }

  lemma OneHolding(s: L.State, i: nat, j: nat, b: Name)
    requires Sound(s) && i in s.claims && j in s.claims && i != j && s.claims[i].proposal.resource == s.claims[j].proposal.resource
    ensures !(b in L.Holders(s.allocs, i) && b in L.Holders(s.allocs, j))
  {
    hide Sound, L.Holders;
    HolderCell(s, i, b);
    HolderCell(s, j, b);
  }

  lemma GrantedAt(s: L.State, view: AgentView, k: nat)
    requires Shown(view, s) && k < |view.granted|
    ensures var v := view.granted[k];
            v.id in s.claims && s.claims[v.id].status == Granted && v == ClaimView(v.id, s.claims[v.id], L.HolderList(s.allocs, v.id))
  {
    var ids := L.IdsWith(s, Granted);
    assert ids[k] in ids;
    hide L.IdsWith, L.HolderList;
  }

  lemma GrantedIds(s: L.State, view: AgentView)
    requires Shown(view, s)
    ensures forall i, j :: 0 <= i < j < |view.granted| ==> view.granted[i].id != view.granted[j].id
    ensures forall id :: id in s.claims && s.claims[id].status == Granted ==> exists v :: v in view.granted && v.id == id
  {
    var ids, g := L.IdsWith(s, Granted), view.granted;
    forall id | id in s.claims && s.claims[id].status == Granted ensures exists v :: v in g && v.id == id {
      assert id in ids;
      var k :| 0 <= k < |ids| && ids[k] == id;
      assert g[k] in g;
    }
  }

  lemma ShownSeparate(s: L.State, view: AgentView, bc: ClaimView)
    requires Sound(s) && Shown(view, s)
    ensures Separate(bc, view.granted)
  {
    hide Sound, L.Holders, Shown;
    var g := view.granted;
    GrantedIds(s, view);
    forall i, j, b | 0 <= i < j < |g| && Bumpable(bc, g[i]) && Bumpable(bc, g[j]) && b in g[i].holders ensures b !in g[j].holders {
      GrantedAt(s, view, i);
      GrantedAt(s, view, j);
      OneHolding(s, g[i].id, g[j].id, b);
    }
    forall gc | gc in g ensures NoDup(gc.holders) {
      var k :| 0 <= k < |g| && g[k] == gc;
      GrantedAt(s, view, k);
    }
  }

  /** A seat of the passenger's own, other than the contested one, is free. */
  predicate CanFlyOtherwise(s: L.State, pax: Roster, b: Name, exclude: Name) {
    exists f :: f in LegalFlights(pax, b) && SeatOf(f) != exclude && SeatOf(f) in s.resources && L.Free(s, SeatOf(f)) >= 1
  }

  /** May be bumped: holds the contested resource under someone else's revocable claim, is less protected, can fly otherwise. */
  predicate Eligible(s: L.State, pax: Roster, p: Proposal, b: Name) {
    && (p.resource, b) in s.allocs && s.allocs[(p.resource, b)].claim in s.claims
    && var q := s.claims[s.allocs[(p.resource, b)].claim].proposal;
       q.agent != p.agent && q.revocable && Rank(pax, b) > BestRank(pax, p.beneficiaries) && CanFlyOtherwise(s, pax, b, p.resource)
  }

  function EligibleSet(s: L.State, pax: Roster, p: Proposal): set<Name> {
    set b | b in L.On(s.allocs.Keys, p.resource) && Eligible(s, pax, p, b)
  }

  lemma FreshUsable(s: L.State, view: AgentView, r: Name)
    requires Shown(view, s) && IsSeat(r)
    ensures Usable(FreshDesk(view), r) == if r in s.resources then L.Free(s, r) else 0
  {
    hide L.Free, L.IdsWith;
  }

  lemma FreshAlternative(s: L.State, view: AgentView, pax: Roster, b: Name, exclude: Name)
    requires Shown(view, s)
    ensures FirstAlternative(FreshDesk(view), LegalFlights(pax, b), exclude).Some? <==> CanFlyOtherwise(s, pax, b, exclude)
  {
    forall f ensures Usable(FreshDesk(view), SeatOf(f)) == if SeatOf(f) in s.resources then L.Free(s, SeatOf(f)) else 0 {
      SeatOfInjective(f, f);
      FreshUsable(s, view, SeatOf(f));
    }
    hide Shown, FreshDesk, Usable, SeatOf, L.Free, IsSeat;
  }

  /** The candidate a passenger makes. */
  ghost predicate CandidateFor(s: L.State, pax: Roster, p: Proposal, c: Candidate) {
    && Eligible(s, pax, p, c.pid) && c.claim == s.allocs[(p.resource, c.pid)].claim && c.rank == Rank(pax, c.pid)
    && c.alt != p.resource
  }

  lemma WeighedIs(s: L.State, view: AgentView, pax: Roster, bc: ClaimView, gc: ClaimView, b: Name)
    requires Shown(view, s)
    ensures var p, r := bc.claim.proposal, Consider(FreshDesk(view), pax, bc, gc, b);
            if Rank(pax, b) > BestRank(pax, p.beneficiaries) && CanFlyOtherwise(s, pax, b, p.resource)
            then |r| == 1 && r[0].pid == b && r[0].rank == Rank(pax, b) && r[0].claim == gc.id && r[0].alt != p.resource else r == []
  {
    FreshAlternative(s, view, pax, b, bc.claim.proposal.resource);
    hide Shown, FreshDesk, FirstAlternative, CanFlyOtherwise, BestRank, Rank;
  }

  lemma OfferedIsCandidate(s: L.State, view: AgentView, pax: Roster, bc: ClaimView, c: Candidate)
    requires Sound(s) && Shown(view, s) && Offered(FreshDesk(view), pax, bc, view.granted, c)
    ensures CandidateFor(s, pax, bc.claim.proposal, c)
    ensures c.claim in s.claims && s.claims[c.claim].status == Granted && s.claims[c.claim].proposal.resource == bc.claim.proposal.resource
  {
    hide Sound, Shown, Consider, FreshDesk, BestRank, CanFlyOtherwise, Rank, L.Holders;
    var gc :| gc in view.granted && Bumpable(bc, gc) && c.pid in gc.holders && Weighed(FreshDesk(view), pax, bc, gc, c);
    var k :| 0 <= k < |view.granted| && view.granted[k] == gc;
    GrantedAt(s, view, k);
    HolderCell(s, gc.id, c.pid);
    WeighedIs(s, view, pax, bc, gc, c.pid);
  }

  lemma EligibleIsOffered(s: L.State, view: AgentView, pax: Roster, bc: ClaimView, b: Name)
    requires Sound(s) && Shown(view, s) && Eligible(s, pax, bc.claim.proposal, b)
    ensures exists c :: Offered(FreshDesk(view), pax, bc, view.granted, c) && c.pid == b
  {
    hide Sound, Shown, Consider, FreshDesk, BestRank, CanFlyOtherwise, Rank, L.Holders;
    var r := bc.claim.proposal.resource;
    var id := s.allocs[(r, b)].claim;
    AllocBacked(s, (r, b));
    GrantedIds(s, view);
    var gc :| gc in view.granted && gc.id == id;
    var k :| 0 <= k < |view.granted| && view.granted[k] == gc;
    GrantedAt(s, view, k);
    HolderCell(s, id, b);
    WeighedIs(s, view, pax, bc, gc, b);
    var c := Consider(FreshDesk(view), pax, bc, gc, b)[0];
    assert Consider(FreshDesk(view), pax, bc, gc, b) == [c];
    assert Weighed(FreshDesk(view), pax, bc, gc, c);
  }

  lemma AllocBacked(s: L.State, k: L.Cell)
    requires Sound(s) && k in s.allocs
    ensures s.allocs[k].claim in s.claims && s.claims[s.allocs[k].claim].status == Granted
    ensures s.claims[s.allocs[k].claim].proposal.resource == k.0
  {
    hide Within, Exclusive, Filed;
  }

  function PidSet(cs: seq<Candidate>): set<Name> {
    set c | c in cs :: c.pid
  }

  /** The candidates are exactly the eligible, once each. */
  lemma GatherEligible(s: L.State, view: AgentView, pax: Roster, bc: ClaimView)
    requires Sound(s) && Shown(view, s)
    ensures var cs := Gather(FreshDesk(view), pax, bc, view.granted);
            && PidSet(cs) == EligibleSet(s, pax, bc.claim.proposal) && DistinctPids(cs) && |cs| == |EligibleSet(s, pax, bc.claim.proposal)|
            && forall c :: c in cs ==> CandidateFor(s, pax, bc.claim.proposal, c)
  {
    hide Sound, Shown, Gather, Offered, CandidateFor, FreshDesk, Separate, Eligible;
    var d, p := FreshDesk(view), bc.claim.proposal;
    var cs := Gather(d, pax, bc, view.granted);
    ShownSeparate(s, view, bc);
    GatherIs(d, pax, bc, view.granted);
    forall c | c in cs ensures CandidateFor(s, pax, p, c) { OfferedIsCandidate(s, view, pax, bc, c); }
    CandidatesEligible(s, pax, p, cs);
    forall b | b in EligibleSet(s, pax, p) ensures b in PidSet(cs) {
      EligibleIsOffered(s, view, pax, bc, b);
      var c :| Offered(d, pax, bc, view.granted, c) && c.pid == b;
      assert c in cs;
    }
    PidCount(cs);
  }

  lemma CandidatesEligible(s: L.State, pax: Roster, p: Proposal, cs: seq<Candidate>)
    requires forall c :: c in cs ==> CandidateFor(s, pax, p, c)
    ensures PidSet(cs) <= EligibleSet(s, pax, p)
  {
    OnHas(s.allocs.Keys, p.resource);
    hide CanFlyOtherwise, BestRank, Rank, L.On;
  }

  lemma {:induction false} PidCount(cs: seq<Candidate>)
    requires DistinctPids(cs)
    ensures |PidSet(cs)| == |cs|
    decreases |cs|
  {
    if cs != [] {
      var n := |cs| - 1;
      PidCount(cs[..n]);
      assert cs == cs[..n] + [cs[n]];
      assert PidSet(cs) == PidSet(cs[..n]) + {cs[n].pid};
      assert cs[n].pid !in PidSet(cs[..n]);
    }
  }

  // ---------------------------------------------------------------- the victims

  lemma DistinctSorted(cs: seq<Candidate>, t: seq<Candidate>)
    requires DistinctPids(cs) && multiset(t) == multiset(cs)
    ensures DistinctPids(t)
  {
    assert forall c :: c in cs <==> c in multiset(cs);
    assert forall c :: c in t <==> c in multiset(t);
    assert NoDup(cs);
    NoDupCount(cs);
    CountNoDup(t);
    forall i, j | 0 <= i < j < |t| ensures t[i].pid != t[j].pid {
      assert t[i] in cs && t[j] in cs;
      var a :| 0 <= a < |cs| && cs[a] == t[i];
      var b :| 0 <= b < |cs| && cs[b] == t[j];
      assert a != b;
    }
  }

  lemma ByRankOrder()
    ensures Total(LessProtectedFirst) && Transitive(LessProtectedFirst)
  {}

  /**
   * The victims: as many as are short or eligible, whichever is less; all eligible; and nobody eligible who is
   * spared is less protected than a victim.
   */
  lemma VictimsFacts(s: L.State, view: AgentView, pax: Roster, bc: ClaimView, shortfall: nat)
    requires Sound(s) && Shown(view, s)
    ensures var (vs, e) := (Victims(FreshDesk(view), pax, bc, view.granted, shortfall), EligibleSet(s, pax, bc.claim.proposal));
            && DistinctPids(vs) && |PidSet(vs)| == |vs| == Min(shortfall, |e|) && PidSet(vs) <= e
            && (forall c :: c in vs ==> CandidateFor(s, pax, bc.claim.proposal, c))
            && (forall b, x :: b in PidSet(vs) && x in e && x !in PidSet(vs) ==> Rank(pax, x) <= Rank(pax, b))
  {
    hide Sound, Shown, Gather, Eligible, FreshDesk, Rank, SortBy, EligibleSet, DistinctPids;
    var cs := Gather(FreshDesk(view), pax, bc, view.granted);
    GatherEligible(s, view, pax, bc);
    var sorted := SortBy(cs, LessProtectedFirst);
    ByRankOrder();
    SortBySorted(cs, LessProtectedFirst);
    SortByElems(cs, LessProtectedFirst);
    DistinctSorted(cs, sorted);
    PrefixVictims(s, pax, bc.claim.proposal, sorted, Min(shortfall, |sorted|), cs);
  }

  lemma PrefixVictims(s: L.State, pax: Roster, p: Proposal, sorted: seq<Candidate>, n: nat, cs: seq<Candidate>)
    requires n <= |sorted| && DistinctPids(sorted) && Sorted(sorted, LessProtectedFirst) && forall c :: c in sorted <==> c in cs
    requires forall c :: c in cs ==> CandidateFor(s, pax, p, c)
    ensures var vs := sorted[..n];
            && DistinctPids(vs) && |PidSet(vs)| == |vs| && PidSet(vs) <= PidSet(cs)
            && (forall c :: c in vs ==> CandidateFor(s, pax, p, c))
            && (forall b, x :: b in PidSet(vs) && x in PidSet(cs) && x !in PidSet(vs) ==> Rank(pax, x) <= Rank(pax, b))
  {
    hide Eligible, Rank;
    var vs := sorted[..n];
    PidCount(vs);
    assert forall c :: c in vs ==> c in sorted;
    forall b, x | b in PidSet(vs) && x in PidSet(cs) && x !in PidSet(vs) ensures Rank(pax, x) <= Rank(pax, b) {
      var c :| c in cs && c.pid == x;
      var v :| v in vs && v.pid == b;
      SparedRank(sorted, n, v, c);
    }
  }

  lemma SparedRank(sorted: seq<Candidate>, n: nat, v: Candidate, c: Candidate)
    requires n <= |sorted| && Sorted(sorted, LessProtectedFirst) && v in sorted[..n] && c in sorted && c.pid !in PidSet(sorted[..n])
    ensures v.rank >= c.rank
  {
    var i :| 0 <= i < n && sorted[i] == v;
    var j :| 0 <= j < |sorted| && sorted[j] == c;
    assert forall k :: 0 <= k < n ==> sorted[..n][k].pid in PidSet(sorted[..n]);
    assert LessProtectedFirst(sorted[i], sorted[j]);
  }

  // ---------------------------------------------------------------- the revokes go through

  function CellsUnder(r: Name, vs: seq<Candidate>, ids: set<nat>): set<L.Cell> {
    set v | v in vs && v.claim in ids :: (r, v.pid)
  }

  /** Every listed victim holds the resource under a granted claim. */
  ghost predicate Holding(s: L.State, r: Name, vs: seq<Candidate>, ids: set<nat>) {
    forall v :: v in vs && v.claim in ids ==>
      && v.claim in s.claims && s.claims[v.claim].status == Granted && s.claims[v.claim].proposal.resource == r
      && (r, v.pid) in s.allocs && s.allocs[(r, v.pid)].claim == v.claim
  }

  lemma {:induction false} PidsUnderIs(vs: seq<Candidate>, id: nat)
    ensures forall b :: b in PidsUnder(vs, id) <==> exists v :: v in vs && v.claim == id && v.pid == b
    ensures DistinctPids(vs) ==> NoDup(PidsUnder(vs, id))
    decreases |vs|
  {
    if vs != [] {
      var n := |vs| - 1;
      PidsUnderIs(vs[..n], id);
      assert vs == vs[..n] + [vs[n]];
      assert forall v :: v in vs <==> v in vs[..n] || v == vs[n];
      if DistinctPids(vs) {
        assert forall v :: v in vs[..n] ==> v.pid != vs[n].pid;
        assert DistinctPids(vs[..n]);
        assert vs[n].pid !in PidsUnder(vs[..n], id);
      }
    }
  }

  /** One revoke: exactly the victims under that claim lose the resource. */
  lemma RevokeOne(s: L.State, r: Name, vs: seq<Candidate>, id: nat, ruling: nat, round: nat)
    requires DistinctPids(vs) && Holding(s, r, vs, {id}) && exists v :: v in vs && v.claim == id
    ensures var st := L.RuleOp(s, RevokeOp(vs, id), ruling, round);
            && st.out == L.Ok && st.state.allocs == s.allocs - CellsUnder(r, vs, {id}) && st.state.resources == s.resources
            && st.state.claims.Keys == s.claims.Keys && st.state.commits == s.commits
            && (forall i :: i in s.claims && i != id ==> st.state.claims[i] == s.claims[i])
  {
    hide L.Holders, DistinctPids;
    var targets := SortBy(PidsUnder(vs, id), NameLe);
    PidsUnderIs(vs, id);
    SortByElems(PidsUnder(vs, id), NameLe);
    hide SortBy, PidsUnder;
    assert (set b | b in targets :: (r, b)) == CellsUnder(r, vs, {id});
  }

  lemma CellsUnderSplit(r: Name, vs: seq<Candidate>, id: nat, rest: set<nat>)
    ensures CellsUnder(r, vs, {id} + rest) == CellsUnder(r, vs, {id}) + CellsUnder(r, vs, rest)
  {}

  lemma HoldingKept(s: L.State, t: L.State, r: Name, vs: seq<Candidate>, id: nat, rest: set<nat>)
    requires Holding(s, r, vs, {id} + rest) && id !in rest && t.allocs == s.allocs - CellsUnder(r, vs, {id})
    requires t.claims.Keys == s.claims.Keys && forall i :: i in s.claims && i != id ==> t.claims[i] == s.claims[i]
    ensures Holding(s, r, vs, {id}) && Holding(t, r, vs, rest)
  {
    forall v | v in vs && v.claim in rest ensures (r, v.pid) !in CellsUnder(r, vs, {id}) {
      assert s.allocs[(r, v.pid)].claim == v.claim;
    }
  }

  /** The revokes of a ruling, applied in order, are all accepted, and take exactly the victims off the resource. */
  lemma {:induction false} RevokesRun(s: L.State, r: Name, vs: seq<Candidate>, ids: seq<nat>, ruling: nat, round: nat)
    requires DistinctPids(vs) && NoDup(ids) && Holding(s, r, vs, Elems(ids)) && forall id :: id in ids ==> exists v :: v in vs && v.claim == id
    ensures var st := L.RuleOps(s, RevokeOps(vs, ids), ruling, round);
            && st.out == L.Ok && st.state.allocs == s.allocs - CellsUnder(r, vs, Elems(ids)) && st.state.resources == s.resources
            && st.state.claims.Keys == s.claims.Keys
            && (forall i :: i in s.claims && i !in ids ==> st.state.claims[i] == s.claims[i])
    decreases |ids|
  {
    hide *;
    if ids == [] {
      NoCells(r, vs);
      NoOps(s, vs, ruling, round);
    } else {
      var id, rest := ids[0], ids[1..];
      assert ids == [id] + rest;
      SplitIds(ids);
      var st := L.RuleOp(s, RevokeOp(vs, id), ruling, round);
      HoldingFirst(s, r, vs, id, Elems(rest));
      RevokeOne(s, r, vs, id, ruling, round);
      HoldingKept(s, st.state, r, vs, id, Elems(rest));
      RevokesRun(st.state, r, vs, rest, ruling, round);
      CellsUnderSplit(r, vs, id, Elems(rest));
      FirstRevoke(s, vs, ids, ruling, round);
    }
  }

  lemma NoOps(s: L.State, vs: seq<Candidate>, ruling: nat, round: nat)
    ensures L.RuleOps(s, RevokeOps(vs, []), ruling, round).out == L.Ok && L.RuleOps(s, RevokeOps(vs, []), ruling, round).state == s
  {}

  lemma SplitIds(ids: seq<nat>)
    requires ids != [] && NoDup(ids)
    ensures Elems(ids) == {ids[0]} + Elems(ids[1..]) && ids[0] !in ids[1..] && ids[0] !in Elems(ids[1..]) && NoDup(ids[1..])
    ensures forall i :: i in ids <==> i == ids[0] || i in ids[1..]
  {
    assert ids == [ids[0]] + ids[1..];
  }

  lemma FirstRevoke(s: L.State, vs: seq<Candidate>, ids: seq<nat>, ruling: nat, round: nat)
    requires ids != [] && L.RuleOp(s, RevokeOp(vs, ids[0]), ruling, round).out == L.Ok
    ensures var (st, rest) := (L.RuleOp(s, RevokeOp(vs, ids[0]), ruling, round), RevokeOps(vs, ids[1..]));
            L.RuleOps(s, RevokeOps(vs, ids), ruling, round).out == L.RuleOps(st.state, rest, ruling, round).out
            && L.RuleOps(s, RevokeOps(vs, ids), ruling, round).state == L.RuleOps(st.state, rest, ruling, round).state
  {
    hide L.RuleOp, RevokeOp;
    assert RevokeOps(vs, ids)[1..] == RevokeOps(vs, ids[1..]);
  }

  lemma NoCells(r: Name, vs: seq<Candidate>)
    ensures CellsUnder(r, vs, Elems<nat>([])) == {}
  {}

  lemma HoldingFirst(s: L.State, r: Name, vs: seq<Candidate>, id: nat, rest: set<nat>)
    requires Holding(s, r, vs, {id} + rest)
    ensures Holding(s, r, vs, {id})
  {}

  // ---------------------------------------------------------------- the ops of one blocked claim

  lemma {:induction false} BumpAllFrees(d: Desk, r: Name, vs: seq<Candidate>)
    requires forall v :: v in vs ==> v.alt != r
    ensures Usable(BumpAll(d, r, vs), r) == Usable(d, r) + |vs| && BumpAll(d, r, vs).ops == d.ops
    decreases |vs|
  {
    if vs != [] {
      var n := |vs| - 1;
      assert vs[n] in vs;
      BumpAllFrees(d, r, vs[..n]);
    }
  }

  /** How many seats short the claim is. */
  function Shortfall(s: L.State, p: Proposal): nat
    requires p.resource in s.resources
  {
    if L.Free(s, p.resource) >= |p.beneficiaries| then 0 else |p.beneficiaries| - L.Free(s, p.resource)
  }

  function Bumps(s: L.State, pax: Roster, p: Proposal): nat
    requires p.resource in s.resources
  {
    Min(Shortfall(s, p), |EligibleSet(s, pax, p)|)
  }

  /** How many seats the ruling hands to the claim. */
  function Grants(s: L.State, pax: Roster, p: Proposal): int
    requires p.resource in s.resources
  {
    Min(|p.beneficiaries|, L.Free(s, p.resource) + Bumps(s, pax, p))
  }

  lemma FreeIsNat(s: L.State, r: Name)
    requires Sound(s) && r in s.resources
    ensures L.Free(s, r) >= 0
  {
    hide Backed, Exclusive, Filed, L.Used;
  }

  function VictimsOf(s: L.State, view: AgentView, pax: Roster, bc: ClaimView): seq<Candidate>
    requires bc.claim.proposal.resource in s.resources
  {
    if Shortfall(s, bc.claim.proposal) == 0 then [] else Victims(FreshDesk(view), pax, bc, view.granted, Shortfall(s, bc.claim.proposal))
  }

  function GrantPart(bc: ClaimView, n: int): seq<RulingOp>
    requires n <= |bc.claim.proposal.beneficiaries|
  {
    if n <= 0 then [] else [GrantOf(bc, n)]
  }

  lemma ServeOps(s: L.State, view: AgentView, pax: Roster, bc: ClaimView)
    requires Sound(s) && Shown(view, s) && bc.claim.proposal.resource in s.resources && IsSeat(bc.claim.proposal.resource)
    ensures var vs := VictimsOf(s, view, pax, bc);
            Serve(FreshDesk(view), pax, bc, view.granted).ops
            == RevokeOps(vs, D.SortedNats(ClaimsOf(vs))) + GrantPart(bc, Grants(s, pax, bc.claim.proposal))
  {
    hide *;
    GrantsIs(s, pax, bc.claim.proposal);
    var p, d, vs := bc.claim.proposal, FreshDesk(view), VictimsOf(s, view, pax, bc);
    ShortfallIs(s, view, pax, bc);
    VictimsLen(s, view, pax, bc);
    BumpAllFrees(d, p.resource, vs);
    BumpIs(d, pax, bc, view.granted, vs);
    assert d.ops == [] by { EmptyDesk(view); }
    var e := Bump(d, pax, bc, view.granted);
    ServeIs(d, pax, bc, view.granted);
    assert [] + RevokeOps(vs, D.SortedNats(ClaimsOf(vs))) == RevokeOps(vs, D.SortedNats(ClaimsOf(vs)));
    assert Usable(e, p.resource) == L.Free(s, p.resource) + Bumps(s, pax, p);
  }

  lemma VictimsLen(s: L.State, view: AgentView, pax: Roster, bc: ClaimView)
    requires Sound(s) && Shown(view, s) && bc.claim.proposal.resource in s.resources
    ensures |VictimsOf(s, view, pax, bc)| == Bumps(s, pax, bc.claim.proposal)
    ensures forall v :: v in VictimsOf(s, view, pax, bc) ==> v.alt != bc.claim.proposal.resource
  {
    hide Sound, Shown, VictimsOf, Bumps, EligibleSet, CandidateFor, DistinctPids, PidSet;
    VictimsCount(s, view, pax, bc);
  }

  lemma ServeIs(d: Desk, pax: Roster, bc: ClaimView, granted: seq<ClaimView>)
    ensures var (e, p) := (Bump(d, pax, bc, granted), bc.claim.proposal);
            Serve(d, pax, bc, granted).ops == e.ops + GrantPart(bc, Min(|p.beneficiaries|, Usable(e, p.resource)))
  {
    hide Bump, Usable, GrantOf;
    var e := Bump(d, pax, bc, granted);
    assert e.ops + [] == e.ops;
  }

  lemma GrantsIs(s: L.State, pax: Roster, p: Proposal)
    requires p.resource in s.resources
    ensures Grants(s, pax, p) == Min(|p.beneficiaries|, L.Free(s, p.resource) + Bumps(s, pax, p))
  {}

  lemma EmptyDesk(view: AgentView)
    ensures FreshDesk(view).ops == []
  {}

  lemma ShortfallIs(s: L.State, view: AgentView, pax: Roster, bc: ClaimView)
    requires Sound(s) && Shown(view, s) && bc.claim.proposal.resource in s.resources && IsSeat(bc.claim.proposal.resource)
    ensures var (p, d) := (bc.claim.proposal, FreshDesk(view));
            && Usable(d, p.resource) == L.Free(s, p.resource)
            && VictimsOf(s, view, pax, bc) == if Usable(d, p.resource) >= |p.beneficiaries| then []
                                              else Victims(d, pax, bc, view.granted, |p.beneficiaries| - Usable(d, p.resource))
  {
    hide Sound, Shown, Victims, FreshDesk, L.Free, Usable, IsSeat;
    FreshUsable(s, view, bc.claim.proposal.resource);
  }

  lemma NoRevokes()
    ensures RevokeOps([], D.SortedNats(ClaimsOf([]))) == []
  {
    assert ClaimsOf([]) == {};
  }

  lemma BumpIs(d: Desk, pax: Roster, bc: ClaimView, granted: seq<ClaimView>, vs: seq<Candidate>)
    requires var p := bc.claim.proposal;
             vs == if Usable(d, p.resource) >= |p.beneficiaries| then [] else Victims(d, pax, bc, granted, |p.beneficiaries| - Usable(d, p.resource))
    ensures var (e, r) := (Bump(d, pax, bc, granted), bc.claim.proposal.resource);
            && Usable(e, r) == Usable(BumpAll(d, r, vs), r)
            && e.ops == BumpAll(d, r, vs).ops + RevokeOps(vs, D.SortedNats(ClaimsOf(vs)))
  {
    hide Victims, D.SortedNats, ClaimsOf, RevokeOps, Owners, BumpAll, Usable, BestRank;
    var r := bc.claim.proposal.resource;
    if Usable(d, r) >= |bc.claim.proposal.beneficiaries| {
      NoRevokes();
      NoBumps(d, r);
      assert d.ops + [] == d.ops;
    } else {
      SameSeats(BumpAll(d, r, vs), Bump(d, pax, bc, granted), r);
    }
  }

  lemma NoBumps(d: Desk, r: Name)
    ensures BumpAll(d, r, []) == d
  {}

  lemma SameSeats(d: Desk, e: Desk, r: Name)
    requires d.free == e.free && d.reserved == e.reserved
    ensures Usable(d, r) == Usable(e, r)
  {}

  /** The victims, whether or not any are needed. */
  lemma VictimsCount(s: L.State, view: AgentView, pax: Roster, bc: ClaimView)
    requires Sound(s) && Shown(view, s) && bc.claim.proposal.resource in s.resources
    ensures var (vs, p) := (VictimsOf(s, view, pax, bc), bc.claim.proposal);
            && DistinctPids(vs) && |PidSet(vs)| == |vs| == Bumps(s, pax, p) && PidSet(vs) <= EligibleSet(s, pax, p)
            && (forall c :: c in vs ==> CandidateFor(s, pax, p, c) && c.alt != p.resource)
            && (forall b, x :: b in PidSet(vs) && x in EligibleSet(s, pax, p) && x !in PidSet(vs) ==> Rank(pax, x) <= Rank(pax, b))
  {
    hide Sound, Shown, Victims, Eligible, EligibleSet, L.Free, Rank;
    var p := bc.claim.proposal;
    if Shortfall(s, p) == 0 {
      assert PidSet([]) == {};
    } else {
      VictimsFacts(s, view, pax, bc, Shortfall(s, p));
    }
  }

  // ---------------------------------------------------------------- the whole ruling goes through

  lemma {:induction false} RuleOpsConcat(s: L.State, a: seq<RulingOp>, b: seq<RulingOp>, ruling: nat, round: nat)
    requires L.RuleOps(s, a, ruling, round).out == L.Ok
    ensures var t := L.RuleOps(s, a, ruling, round).state;
            L.RuleOps(s, a + b, ruling, round).state == L.RuleOps(t, b, ruling, round).state
            && L.RuleOps(s, a + b, ruling, round).out == L.RuleOps(t, b, ruling, round).out
    decreases |a|
  {
    hide L.RuleOp;
    if a == [] {
      assert a + b == b;
    } else {
      assert (a + b)[0] == a[0] && (a + b)[1..] == a[1..] + b;
      RuleOpsConcat(L.RuleOp(s, a[0], ruling, round).state, a[1..], b, ruling, round);
    }
  }

  lemma VictimsHold(s: L.State, pax: Roster, p: Proposal, vs: seq<Candidate>)
    requires Sound(s) && forall c :: c in vs ==> CandidateFor(s, pax, p, c)
    ensures Holding(s, p.resource, vs, ClaimsOf(vs))
  {
    hide Sound, Rank, BestRank, CanFlyOtherwise;
    forall v | v in vs ensures s.allocs[(p.resource, v.pid)].claim in s.claims && s.claims[v.claim].status == Granted
                               && s.claims[v.claim].proposal.resource == p.resource {
      assert CandidateFor(s, pax, p, v);
      AllocBacked(s, (p.resource, v.pid));
    }
  }

  function Cut(r: Name, bens: set<Name>): set<L.Cell> {
    set b | b in bens :: (r, b)
  }

  lemma AllVictims(r: Name, vs: seq<Candidate>)
    ensures CellsUnder(r, vs, ClaimsOf(vs)) == Cut(r, PidSet(vs))
  {}

  lemma CutUsed(a: L.Allocs, r: Name, bens: set<Name>)
    requires bens <= L.On(a.Keys, r)
    ensures L.On((a - Cut(r, bens)).Keys, r) == L.On(a.Keys, r) - bens
    ensures L.Used(a - Cut(r, bens), r) == L.Used(a, r) - |bens|
  {
    OnHas(a.Keys, r);
    OnHas((a - Cut(r, bens)).Keys, r);
    hide L.On;
    assert L.On((a - Cut(r, bens)).Keys, r) == L.On(a.Keys, r) - bens;
  }

  /** Nobody named by the claim holds its resource, or anything else in its group. */
  ghost predicate Unseated(s: L.State, p: Proposal)
    requires p.resource in s.resources
  {
    forall b :: b in p.beneficiaries ==>
      (p.resource, b) !in s.allocs && (s.resources[p.resource].group.Some? ==> !L.HeldInGroup(s.allocs, s.resources[p.resource].group.value, b))
  }

  /** With room for them, the first `n` beneficiaries of an unseated blocked claim are granted. */
  lemma GrantRuns(s: L.State, bc: ClaimView, n: nat, ruling: nat, round: nat)
    requires bc.id in s.claims && s.claims[bc.id].status == Blocked && s.claims[bc.id].proposal == bc.claim.proposal
    requires var p := bc.claim.proposal;
             p.resource in s.resources && Unseated(s, p) && n <= |p.beneficiaries| && n <= L.Free(s, p.resource)
    ensures var (st, p) := (L.RuleOp(s, GrantOf(bc, n), ruling, round), bc.claim.proposal);
            && st.out == L.Ok && st.state.resources == s.resources
            && st.state.allocs == L.Granting(s.allocs, bc.id, p.resource, s.resources[p.resource].group, p.beneficiaries[..n])
            && st.state.claims == s.claims[bc.id := s.claims[bc.id].(status := Granted, resolved := Some(round))]
  {
    hide L.Used, L.Granting, L.HeldInGroup;
    var p := bc.claim.proposal;
    var targets := p.beneficiaries[..n];
    assert forall b :: b in targets ==> b in p.beneficiaries;
    assert p.beneficiaries[..|p.beneficiaries|] == p.beneficiaries;
    assert NoDup(targets);
  }

  lemma UnseatedStill(s: L.State, t: L.State, p: Proposal)
    requires p.resource in s.resources && Unseated(s, p) && t.resources == s.resources
    requires forall k :: k in t.allocs ==> k in s.allocs && t.allocs[k] == s.allocs[k]
    ensures Unseated(t, p)
  {}

  /**
   * What a ruling on one blocked claim comes to: `bumped` have lost the contested seats and nothing else has
   * been taken from anyone, and the claim's first `n` beneficiaries hold them instead.
   */
  ghost predicate Reseated(s: L.State, t: L.State, id: nat, p: Proposal, bumped: set<Name>, n: int)
    requires p.resource in s.resources && n <= |p.beneficiaries|
  {
    var left := s.allocs - Cut(p.resource, bumped);
    && t.resources == s.resources
    && t.allocs == (if n <= 0 then left else L.Granting(left, id, p.resource, s.resources[p.resource].group, p.beneficiaries[..n]))
    && (n > 0 ==> id in t.claims && t.claims[id].status == Granted)
  }

  lemma RevokesThenGrant(s: L.State, bc: ClaimView, vs: seq<Candidate>, n: int, ruling: nat, round: nat)
    requires Sound(s) && bc.id in s.claims && s.claims[bc.id].status == Blocked && s.claims[bc.id].proposal == bc.claim.proposal
    requires var p := bc.claim.proposal;
             && p.resource in s.resources && Unseated(s, p) && n <= |p.beneficiaries| && n <= L.Free(s, p.resource) + |vs|
             && DistinctPids(vs) && |PidSet(vs)| == |vs| && PidSet(vs) <= L.On(s.allocs.Keys, p.resource) && Holding(s, p.resource, vs, ClaimsOf(vs))
    ensures var st := L.RuleOps(s, RevokeOps(vs, D.SortedNats(ClaimsOf(vs))) + GrantPart(bc, n), ruling, round);
            st.out == L.Ok && Reseated(s, st.state, bc.id, bc.claim.proposal, PidSet(vs), n)
  {
    hide Sound, DistinctPids, Unseated, RevokeOps, L.Granting, L.RuleOp, GrantOf, L.On, L.Used, Cut, PidSet, CellsUnder;
    var p, ids := bc.claim.proposal, D.SortedNats(ClaimsOf(vs));
    var revokes := RevokeOps(vs, ids);
    assert Elems(ids) == ClaimsOf(vs);
    NotAVictim(s, bc.id, p.resource, vs);
    hide ClaimsOf, Holding;
    RevokesRun(s, p.resource, vs, ids, ruling, round);
    AllVictims(p.resource, vs);
    var t := L.RuleOps(s, revokes, ruling, round).state;
    CutUsed(s.allocs, p.resource, PidSet(vs));
    UnseatedStill(s, t, p);
    RuleOpsConcat(s, revokes, GrantPart(bc, n), ruling, round);
    if n > 0 {
      GrantRuns(t, bc, n, ruling, round);
      RuleOpsOne(t, GrantOf(bc, n), ruling, round);
    }
  }

  lemma RuleOpsOne(s: L.State, op: RulingOp, ruling: nat, round: nat)
    requires L.RuleOp(s, op, ruling, round).out == L.Ok
    ensures L.RuleOps(s, [op], ruling, round).out == L.Ok && L.RuleOps(s, [op], ruling, round).state == L.RuleOp(s, op, ruling, round).state
  {
    hide L.RuleOp;
    assert L.RuleOps(L.RuleOp(s, op, ruling, round).state, [op][1..], ruling, round).out == L.Ok;
  }

  lemma NotAVictim(s: L.State, id: nat, r: Name, vs: seq<Candidate>)
    requires id in s.claims && s.claims[id].status == Blocked && Holding(s, r, vs, ClaimsOf(vs))
    ensures id !in ClaimsOf(vs) && forall x :: x in D.SortedNats(ClaimsOf(vs)) ==> exists v :: v in vs && v.claim == x
  {}

  /** The one blocked seat claim the deadlock is about, its beneficiaries seated nowhere. */
  ghost predicate SoleDispute(s: L.State, view: AgentView, dl: Deadlock, bc: ClaimView) {
    Disputed(view.blocked, dl) == [bc] && bc.claim.proposal.resource in s.resources && Unseated(s, bc.claim.proposal)
  }

  lemma {:induction false} DisputedIs(blocked: seq<ClaimView>, dl: Deadlock, v: ClaimView)
    requires v in Disputed(blocked, dl)
    ensures v in blocked && IsSeat(v.claim.proposal.resource)
    decreases |blocked|
  {
    hide IsSeat;
    var n := |blocked| - 1;
    if v != blocked[n] || !(v.id in dl.claims && IsSeat(v.claim.proposal.resource)) { DisputedIs(blocked[..n], dl, v); }
  }

  lemma BlockedAt(s: L.State, view: AgentView, v: ClaimView)
    requires Shown(view, s) && v in view.blocked
    ensures v.id in s.claims && s.claims[v.id].status == Blocked && v.claim == s.claims[v.id]
  {
    var ids := L.IdsWith(s, Blocked);
    var k :| 0 <= k < |view.blocked| && view.blocked[k] == v;
    assert ids[k] in ids;
    hide L.IdsWith, L.HolderList;
  }

  lemma SoleOps(view: AgentView, pax: Roster, dl: Deadlock, bc: ClaimView)
    requires Disputed(view.blocked, dl) == [bc]
    ensures SeatsRuling(view, pax, dl).ops == Serve(FreshDesk(view), pax, bc, view.granted).ops
  {
    hide Serve, FreshDesk, ProtectedLe, SortBy, Disputed, ServeAll, SeatCitations, Dismissed;
    SortOne(bc, ByProtection(pax));
    ServeOne(FreshDesk(view), pax, bc, view.granted);
  }

  lemma SortOne<T>(x: T, le: (T, T) -> bool)
    ensures SortBy([x], le) == [x]
  {
    assert [x][1..] == [];
    assert SortBy([x][1..], le) == [];
  }

  lemma ServeOne(d: Desk, pax: Roster, bc: ClaimView, granted: seq<ClaimView>)
    ensures ServeAll(d, pax, [bc], granted) == Serve(d, pax, bc, granted)
  {
    hide Serve;
    assert [bc][..0] == [];
  }

  lemma ReseatedCells(s: L.State, t: L.State, id: nat, p: Proposal, bumped: set<Name>, n: int)
    requires p.resource in s.resources && n <= |p.beneficiaries| && Unseated(s, p) && bumped <= L.On(s.allocs.Keys, p.resource)
    requires Reseated(s, t, id, p, bumped, n)
    ensures L.On(s.allocs.Keys, p.resource) - L.On(t.allocs.Keys, p.resource) == bumped
    ensures L.Used(t.allocs, p.resource) == L.Used(s.allocs, p.resource) - |bumped| + if n <= 0 then 0 else n
  {
    hide L.On, L.Granting, L.Used, Cut, L.HeldInGroup;
    var r, left := p.resource, s.allocs - Cut(p.resource, bumped);
    OnHas(s.allocs.Keys, r);
    CutUsed(s.allocs, r, bumped);
    if n > 0 {
      var targets := p.beneficiaries[..n];
      assert NoDup(targets) && forall b :: b in targets ==> b in p.beneficiaries;
      GrantedOn(left, id, r, s.resources[r].group, targets, r);
      OnHas(left.Keys, r);
      GrantingUsed(left, id, r, s.resources[r].group, targets, r);
    }
  }

  /** All could be bumped, being less protected and able to fly otherwise, and none spared is less protected still. */
  ghost predicate RightlyBumped(s: L.State, pax: Roster, p: Proposal, bumped: set<Name>) {
    && bumped <= EligibleSet(s, pax, p)
    && (forall b :: b in bumped ==> Rank(pax, b) > BestRank(pax, p.beneficiaries) && CanFlyOtherwise(s, pax, b, p.resource))
    && (forall b, x :: b in bumped && x in EligibleSet(s, pax, p) && x !in bumped ==> Rank(pax, x) <= Rank(pax, b))
  }

  /**
   * What a ruling on one claim alone should come to. The number bumped is the shortfall, or all the eligible if they are
   * fewer; the bumped, and nobody else, lose the seats that the claim's first people get; and with a shortfall the
   * flight ends exactly full.
   */
  ghost predicate RuledFairly(s: L.State, t: L.State, pax: Roster, bc: ClaimView)
    requires bc.claim.proposal.resource in s.resources
  {
    var p := bc.claim.proposal;
    var bumped := L.On(s.allocs.Keys, p.resource) - L.On(t.allocs.Keys, p.resource);
    && Reseated(s, t, bc.id, p, bumped, Grants(s, pax, p)) && RightlyBumped(s, pax, p, bumped)
    && |bumped| == Min(Shortfall(s, p), |EligibleSet(s, pax, p)|)
    && (Shortfall(s, p) > 0 ==> L.Used(t.allocs, p.resource) == s.resources[p.resource].capacity)
  }

  /**
   * For a deadlock with one blocked seat claim whose beneficiaries are seated nowhere, the ruling's ops are all
   * accepted, in order, by the ledger its view came from. Everyone bumped was eligible, hence strictly less protected than
   * the claim's best-protected beneficiary and able to fly otherwise; no eligible passenger who was spared is less
   * protected than one who was bumped; and the rest is as `RuledFairly` says.
   */
  lemma SeatRulingExecutes(s: L.State, view: AgentView, pax: Roster, dl: Deadlock, bc: ClaimView, ruling: nat, round: nat)
    requires Sound(s) && Shown(view, s) && SoleDispute(s, view, dl, bc)
    ensures var st := L.RuleOps(s, SeatsRuling(view, pax, dl).ops, ruling, round); st.out == L.Ok && RuledFairly(s, st.state, pax, bc)
  {
    hide *;
    SoleParts(s, view, dl, bc);
    DisputedIs(view.blocked, dl, bc);
    BlockedAt(s, view, bc);
    var p, vs := bc.claim.proposal, VictimsOf(s, view, pax, bc);
    SoleOps(view, pax, dl, bc);
    ServeOps(s, view, pax, bc);
    VictimsCount(s, view, pax, bc);
    VictimsHold(s, pax, p, vs);
    EligibleMeans(s, pax, p);
    var n := Grants(s, pax, p);
    GrantsBounds(s, pax, p);
    RevokesThenGrant(s, bc, vs, n, ruling, round);
    var t := L.RuleOps(s, SeatsRuling(view, pax, dl).ops, ruling, round).state;
    ReseatedCells(s, t, bc.id, p, PidSet(vs), n);
    FairlyDone(s, t, pax, bc, PidSet(vs));
  }

  lemma GrantsBounds(s: L.State, pax: Roster, p: Proposal)
    requires p.resource in s.resources
    ensures Grants(s, pax, p) <= |p.beneficiaries| && Grants(s, pax, p) <= L.Free(s, p.resource) + Bumps(s, pax, p)
  {
    hide L.Free, Bumps;
  }

  lemma FairlyDone(s: L.State, t: L.State, pax: Roster, bc: ClaimView, bumped: set<Name>)
    requires Sound(s) && bc.claim.proposal.resource in s.resources
    requires var p := bc.claim.proposal;
             var n := Grants(s, pax, p);
             && L.On(s.allocs.Keys, p.resource) - L.On(t.allocs.Keys, p.resource) == bumped && Reseated(s, t, bc.id, p, bumped, n)
             && |bumped| == Bumps(s, pax, p) && bumped <= EligibleSet(s, pax, p)
             && (forall b :: b in EligibleSet(s, pax, p) ==> Rank(pax, b) > BestRank(pax, p.beneficiaries) && CanFlyOtherwise(s, pax, b, p.resource))
             && (forall b, x :: b in bumped && x in EligibleSet(s, pax, p) && x !in bumped ==> Rank(pax, x) <= Rank(pax, b))
             && L.Used(t.allocs, p.resource) == L.Used(s.allocs, p.resource) - |bumped| + if n <= 0 then 0 else n
    ensures RuledFairly(s, t, pax, bc)
  {
    hide Sound, Reseated, EligibleSet, Rank, BestRank, CanFlyOtherwise, L.Used, L.On;
    FreeIsNat(s, bc.claim.proposal.resource);
  }

  lemma SoleParts(s: L.State, view: AgentView, dl: Deadlock, bc: ClaimView)
    requires SoleDispute(s, view, dl, bc)
    ensures bc in Disputed(view.blocked, dl) && Disputed(view.blocked, dl) == [bc] && bc.claim.proposal.resource in s.resources && Unseated(s, bc.claim.proposal)
  {
    hide Disputed, Unseated;
  }

  lemma EligibleMeans(s: L.State, pax: Roster, p: Proposal)
    ensures EligibleSet(s, pax, p) <= L.On(s.allocs.Keys, p.resource)
    ensures forall b :: b in EligibleSet(s, pax, p) ==> Rank(pax, b) > BestRank(pax, p.beneficiaries) && CanFlyOtherwise(s, pax, b, p.resource)
  {
    hide Rank, BestRank, CanFlyOtherwise, L.On;
  }

  /**
   * Nobody carrying medical cargo is ever bumped by such a ruling, and an unaccompanied minor only for a claim that names
   * somebody who does.
   */
  lemma ProtectedStay(s: L.State, view: AgentView, pax: Roster, dl: Deadlock, bc: ClaimView, ruling: nat, round: nat, b: Name)
    requires Sound(s) && Shown(view, s) && SoleDispute(s, view, dl, bc) && b in pax
    requires var (r, t) := (bc.claim.proposal.resource, L.RuleOps(s, SeatsRuling(view, pax, dl).ops, ruling, round).state); (r, b) in s.allocs && (r, b) !in t.allocs
    ensures "MED" !in pax[b].flags
    ensures "UM" in pax[b].flags ==> exists q :: q in bc.claim.proposal.beneficiaries && q in pax && "MED" in pax[q].flags
  {
    hide Sound, Shown, SoleDispute, SeatsRuling, L.RuleOps, Reseated, EligibleSet, CanFlyOtherwise, Rank, Grants;
    SoleParts(s, view, dl, bc);
    SeatRulingExecutes(s, view, pax, dl, bc, ruling, round);
    var p, t := bc.claim.proposal, L.RuleOps(s, SeatsRuling(view, pax, dl).ops, ruling, round).state;
    OnHas(s.allocs.Keys, p.resource);
    OnHas(t.allocs.Keys, p.resource);
    hide L.On;
    assert Rank(pax, b) > BestRank(pax, p.beneficiaries);
    var q :| q in p.beneficiaries && Rank(pax, q) == BestRank(pax, p.beneficiaries);
    RankFlags(pax, q, b);
  }

  lemma RankFlags(pax: Roster, q: Name, b: Name)
    requires b in pax && Rank(pax, q) < Rank(pax, b)
    ensures "MED" !in pax[b].flags && ("UM" in pax[b].flags ==> q in pax && "MED" in pax[q].flags)
  {}

  // ---------------------------------------------------------------- in a run

  /** Ops that are all accepted go through the society's loop without a rejection. */
  lemma {:induction false} LoopAccepts(w: World, ops: seq<RulingOp>, ruling: nat, round: nat)
    requires L.RuleOps(w.ledger, ops, ruling, round).out == L.Ok
    ensures var (out, st) := (ApplyOps(w, ops, ruling, round), L.RuleOps(w.ledger, ops, ruling, round));
            !out.aborted && out.world == OnLedger(w, st, round)
    decreases |ops|
  {
    hide L.RuleOp;
    if ops != [] {
      var st := L.RuleOp(w.ledger, ops[0], ruling, round);
      var rest := L.RuleOps(st.state, ops[1..], ruling, round);
      LoopAccepts(OnLedger(w, st, round), ops[1..], ruling, round);
      assert Stamp(round, st.events + rest.events) == Stamp(round, st.events) + Stamp(round, rest.events);
    } else {
      assert Stamp(round, []) == [];
    }
  }

  /**
   * In a run: the mediator rules on the view it is shown of `w`, and the ops are applied to a world `x` with the same
   * ledger. All go through: nothing is rejected, nothing aborts, and the claim is reseated as it should be.
   */
  lemma MediatedSeatRuling(w: World, x: World, ps: seq<Position>, pax: Roster, dl: Deadlock, bc: ClaimView, ruling: nat, round: nat)
    requires Sound(w.ledger) && x.ledger == w.ledger && SoleDispute(w.ledger, MediatorViewFor(w, round, ps, [dl]).base, dl, bc)
    ensures var ops := SeatsRuling(MediatorViewFor(w, round, ps, [dl]).base, pax, dl).ops;
            var out := ApplyOps(x, ops, ruling, round);
            !out.aborted && out.world == OnLedger(x, L.RuleOps(x.ledger, ops, ruling, round), round) && RuledFairly(w.ledger, out.world.ledger, pax, bc)
  {
    hide Sound, Shown, SeatsRuling, ApplyOps, L.RuleOps, RuledFairly, MediatorViewFor;
    var view := MediatorViewFor(w, round, ps, [dl]).base;
    MediatorSees(w, round, ps, [dl]);
    SeatRulingExecutes(w.ledger, view, pax, dl, bc, ruling, round);
    LoopAccepts(x, SeatsRuling(view, pax, dl).ops, ruling, round);
  }
}
