/** A ledger on which a seat ruling fails: two blocked claims on one full flight with a single holder to bump. */
module DoublePick {
  import opened Order
  import opened Schemas
  import opened LedgerFacts
  import opened Rounds
  import opened Scenario
  import opened Fiat
  import opened SeatRuling
  import opened SeatRulingFacts
  import opened ManyDisputes
  import RF = RebookingFacts
  import L = Ledger

  const HOLDER: Name := "h"
  const COURIER: Name := "m"
  const MINOR: Name := "u"
  const FULL: Name := SeatOf("A")
  const OTHER: Name := SeatOf("B")

  function ClaimOn(agent: Name, who: Name): (p: Proposal)
    ensures p.agent == agent && p.resource == FULL && p.beneficiaries == [who] && p.revocable
  {
    var fields := ProposalFields.Proposal(agent, FULL, [who], "", true);
    assert fields.beneficiaries == [who];
    fields
  }

  /** One seat on A, taken; two on B, free; a courier and a minor are waiting for A. */
  function TwoWaiting(): L.State {
    L.State(
      map[FULL := L.Resource(1, Some(SEAT)), OTHER := L.Resource(2, Some(SEAT))],
      map[(FULL, HOLDER) := L.Alloc(1, Some(SEAT))],
      map[1 := L.Claim(ClaimOn("rebooking", HOLDER), Granted, 1, Some(1), None),
          2 := L.Claim(ClaimOn("advocate", COURIER), Blocked, 1, None, None),
          3 := L.Claim(ClaimOn("advocate", MINOR), Blocked, 1, None, None)],
      map[], 3, 0)
  }

  /** The holder may also fly on B. */
  function Travellers(): Roster {
    map[HOLDER := Passenger(HOLDER, [], "Y", false, 3, ["B"]),
        COURIER := Passenger(COURIER, ["MED"], "Y", false, 1, ["A"]),
        MINOR := Passenger(MINOR, ["UM"], "Y", false, 2, ["A"])]
  }

  lemma NamesDiffer()
    ensures FULL != OTHER && HOLDER != COURIER && HOLDER != MINOR && COURIER != MINOR && IsSeat(FULL) && IsSeat(OTHER) && "rebooking" != "advocate"
  {
    SeatOfInjective("A", "B");
    assert "A"[0] == 'A' && "B"[0] == 'B' && HOLDER[0] == 'h' && COURIER[0] == 'm' && MINOR[0] == 'u' && "rebooking"[0] == 'r' && "advocate"[0] == 'a';
  }

  lemma TwoWaitingSound()
    ensures Sound(TwoWaiting()) && RF.SeatsGrouped(TwoWaiting()) && L.Free(TwoWaiting(), FULL) == 0 && L.Free(TwoWaiting(), OTHER) == 2
  {
    NamesDiffer();
    var s := TwoWaiting();
    hide SeatOf;
    assert L.On(s.allocs.Keys, FULL) == {HOLDER} && L.On(s.allocs.Keys, OTHER) == {};
  }

  lemma RanksDiffer(who: Name)
    requires who == COURIER || who == MINOR
    ensures Rank(Travellers(), HOLDER) == 5 && Rank(Travellers(), who) <= 1
  {
    NamesDiffer();
    assert "MED"[0] == 'M' && "UM"[0] == 'U';
  }

  /** The claim of one of those waiting, as the view shows it. */
  ghost predicate Waiter(bc: ClaimView) {
    (bc.id == 2 || bc.id == 3) && bc.claim == TwoWaiting().claims[bc.id]
  }

  /** The holder's claim, as the view shows it. */
  ghost predicate Seat(gc: ClaimView) {
    gc.id == 1 && gc.claim == TwoWaiting().claims[1] && gc.holders == [HOLDER]
  }

  lemma SingleName(s: seq<Name>, x: Name)
    requires |s| == 1 && x in s
    ensures s == [x]
  {}

  lemma Granted1(view: AgentView)
    requires Shown(view, TwoWaiting())
    ensures |view.granted| == 1 && Seat(view.granted[0])
  {
    hide L.IdsWith, L.HolderList, TwoWaiting;
    GrantedIs1();
    HoldersAre();
    var v := view.granted[0];
    assert v == ClaimView(1, TwoWaiting().claims[1], L.HolderList(TwoWaiting().allocs, 1));
  }

  lemma GrantedIs1()
    ensures L.IdsWith(TwoWaiting(), Granted) == [1] && 1 in TwoWaiting().claims
  {
    hide SeatOf;
    OneId(L.IdsWith(TwoWaiting(), Granted), 1);
    hide L.IdsWith;
  }

  lemma OneId(ids: seq<nat>, x: nat)
    requires NoDup(ids) && forall i :: i in ids <==> i == x
    ensures ids == [x]
  {
    NoDupCard(ids);
    assert Elems(ids) == {x};
    assert ids[0] in ids;
  }

  lemma HoldersAre()
    ensures L.HolderList(TwoWaiting().allocs, 1) == [HOLDER]
  {
    hide SeatOf;
    var a := TwoWaiting().allocs;
    assert (FULL, HOLDER) in a.Keys && L.Holders(a, 1) == {HOLDER};
    hide L.Holders;
    SingleName(L.HolderList(a, 1), HOLDER);
  }

  /** With nothing free on A, whoever is served first or second picks the holder, as long as B has a seat left. */
  lemma PicksHolder(d: Desk, view: AgentView, bc: ClaimView)
    requires Shown(view, TwoWaiting()) && Waiter(bc) && Usable(d, FULL) == 0 && Usable(d, OTHER) >= 1
    ensures Chosen(d, Travellers(), bc, view.granted) == [Candidate(5, HOLDER, 1, OTHER)]
  {
    hide *;
    Granted1(view);
    ServedOne(d, bc, view.granted[0]);
    assert view.granted == [view.granted[0]];
    ChosenIs(d, Travellers(), bc, view.granted);
    WaiterIs(bc);
    VictimIs(d, bc, view.granted, Candidate(5, HOLDER, 1, OTHER));
  }

  lemma WaiterIs(bc: ClaimView)
    requires Waiter(bc)
    ensures var p := bc.claim.proposal;
            p.resource == FULL && |p.beneficiaries| == 1 && (p.beneficiaries == [COURIER] || p.beneficiaries == [MINOR]) && p.agent == "advocate"
  {
    hide SeatOf;
  }

  lemma VictimIs(d: Desk, bc: ClaimView, granted: seq<ClaimView>, c: Candidate)
    requires Gather(d, Travellers(), bc, granted) == [c]
    ensures Victims(d, Travellers(), bc, granted, 1) == [c]
  {
    hide Gather;
    SortOne(c, LessProtectedFirst);
    assert [c][..1] == [c];
  }

  lemma ServedOne(d: Desk, bc: ClaimView, gc: ClaimView)
    requires Waiter(bc) && Seat(gc) && Usable(d, OTHER) >= 1
    ensures Gather(d, Travellers(), bc, [gc]) == [Candidate(5, HOLDER, 1, OTHER)]
  {
    hide Usable, SeatOf, SortBy, Rank, BestRank, Consider;
    NamesDiffer();
    WaiterIs(bc);
    SortOne(HOLDER, NameGe);
    assert [gc][..0] == [] && [HOLDER][..0] == [];
    HolderWeighed(d, bc, gc);
    assert Gather(d, Travellers(), bc, []) == [];
    assert ConsiderAll(d, Travellers(), bc, gc, []) == [];
    assert ConsiderAll(d, Travellers(), bc, gc, [HOLDER]) == [] + Consider(d, Travellers(), bc, gc, HOLDER);
    assert Bumpable(bc, gc);
  }

  lemma HolderWeighed(d: Desk, bc: ClaimView, gc: ClaimView)
    requires Waiter(bc) && Seat(gc) && Usable(d, OTHER) >= 1
    ensures Consider(d, Travellers(), bc, gc, HOLDER) == [Candidate(5, HOLDER, 1, OTHER)]
  {
    hide Usable, Rank, SeatOf;
    NamesDiffer();
    WaiterIs(bc);
    var p := bc.claim.proposal;
    RanksDiffer(p.beneficiaries[0]);
    assert BestRank(Travellers(), p.beneficiaries) <= 1;
    assert LegalFlights(Travellers(), HOLDER) == ["B"];
    assert FirstAlternative(d, ["B"], FULL) == Some(OTHER);
  }

  /** Serving one leaves A full again, and one seat of B spoken for. */
  lemma ServedLeaves(d: Desk, view: AgentView, bc: ClaimView)
    requires Shown(view, TwoWaiting()) && Waiter(bc) && Usable(d, FULL) == 0 && Usable(d, OTHER) >= 1
    ensures var e := Serve(d, Travellers(), bc, view.granted); Usable(e, FULL) == 0 && Usable(e, OTHER) == Usable(d, OTHER) - 1
  {
    hide Victims, RevokeOps, Owners, ClaimsOf, GrantOf, D.SortedNats, SeatOf, Shown, Travellers, Waiter;
    NamesDiffer();
    WaiterIs(bc);
    PicksHolder(d, view, bc);
    BumpOne(d, Candidate(5, HOLDER, 1, OTHER));
    hide BumpAll;
  }

  lemma BumpOne(d: Desk, c: Candidate)
    requires c.alt == OTHER
    ensures var e := BumpAll(d, FULL, [c]); Usable(e, FULL) == Usable(d, FULL) + 1 && Usable(e, OTHER) == Usable(d, OTHER) - 1
  {
    NamesDiffer();
    hide SeatOf;
    assert [c][..0] == [] && BumpAll(d, FULL, []) == d;
  }

  lemma FreshRoom(view: AgentView)
    requires Shown(view, TwoWaiting())
    ensures Usable(FreshDesk(view), FULL) == 0 && Usable(FreshDesk(view), OTHER) == 2
  {
    hide *;
    TwoWaitingSound();
    NamesDiffer();
    Registered();
    FreshUsable(TwoWaiting(), view, FULL);
    FreshUsable(TwoWaiting(), view, OTHER);
  }

  lemma Registered()
    ensures FULL in TwoWaiting().resources && OTHER in TwoWaiting().resources
  {}

  lemma {:induction false} Included(blocked: seq<ClaimView>, dl: Deadlock, v: ClaimView)
    requires v in blocked && v.id in dl.claims && IsSeat(v.claim.proposal.resource)
    ensures v in Disputed(blocked, dl)
    decreases |blocked|
  {
    hide IsSeat;
    var n := |blocked| - 1;
    if v != blocked[n] { Included(blocked[..n], dl, v); }
  }

  lemma BlockedShown(view: AgentView, id: nat)
    requires Shown(view, TwoWaiting()) && (id == 2 || id == 3)
    ensures exists v :: v in view.blocked && v.id == id && Waiter(v)
  {
    var ids := L.IdsWith(TwoWaiting(), Blocked);
    assert id in ids;
    var k :| 0 <= k < |ids| && ids[k] == id;
    assert view.blocked[k] in view.blocked;
    hide L.IdsWith, L.HolderList;
  }

  /** Both are served, one after the other. */
  lemma BothQueued(view: AgentView, dl: Deadlock)
    requires Shown(view, TwoWaiting()) && 2 in dl.claims && 3 in dl.claims
    ensures var q := SortBy(Disputed(view.blocked, dl), ByProtection(Travellers())); |q| == 2 && Waiter(q[0]) && Waiter(q[1])
  {
    hide Shown, Disputed, SortBy, ByProtection, SeatOf, IsSeat, Travellers;
    NamesDiffer();
    var vs := Disputed(view.blocked, dl);
    var q := SortBy(vs, ByProtection(Travellers()));
    BlockedShown(view, 2);
    BlockedShown(view, 3);
    var a :| a in view.blocked && a.id == 2 && Waiter(a);
    var b :| b in view.blocked && b.id == 3 && Waiter(b);
    WaiterIs(a);
    WaiterIs(b);
    Included(view.blocked, dl, a);
    Included(view.blocked, dl, b);
    ShownDistinct(TwoWaiting(), view);
    DisputedDistinct(view.blocked, dl);
    SortedQueue(vs, ByProtection(Travellers()));
    forall v | v in q ensures Waiter(v) {
      BlockedAt(TwoWaiting(), view, v);
    }
    TwoIds(q, a, b);
  }

  lemma TwoIds(q: seq<ClaimView>, a: ClaimView, b: ClaimView)
    requires a in q && b in q && a.id == 2 && b.id == 3 && DistinctIds(q) && forall v :: v in q ==> v.id == 2 || v.id == 3
    ensures |q| == 2
  {
    var ids := seq(|q|, k requires 0 <= k < |q| => q[k].id);
    var i :| 0 <= i < |q| && q[i] == a;
    var j :| 0 <= j < |q| && q[j] == b;
    assert ids[i] == 2 && ids[j] == 3;
    forall x ensures x in ids <==> x == 2 || x == 3 {
      if k :| 0 <= k < |ids| && ids[k] == x { assert q[k] in q; }
    }
    assert Elems(ids) == {2, 3};
    NoDupCard(ids);
  }

  /** Both turns take the holder's one seat. */
  lemma BothPickHolder(view: AgentView, dl: Deadlock)
    requires Shown(view, TwoWaiting()) && 2 in dl.claims && 3 in dl.claims
    ensures var xs := RulingTurns(view, Travellers(), dl); |xs| == 2 && Taken(xs[0]) == Taken(xs[1]) == {(FULL, HOLDER)}
  {
    hide *;
    var d, pax, q := FreshDesk(view), Travellers(), SortBy(Disputed(view.blocked, dl), ByProtection(Travellers()));
    BothQueued(view, dl);
    FreshRoom(view);
    PicksHolder(d, view, q[0]);
    ServedLeaves(d, view, q[0]);
    PicksHolder(Serve(d, pax, q[0], view.granted), view, q[1]);
    RulingIs(view, pax, dl);
    TwoTurns(d, pax, q, view.granted);
    WaiterIs(q[0]);
    WaiterIs(q[1]);
    TurnIs(d, pax, q[0], view.granted);
    TurnIs(Serve(d, pax, q[0], view.granted), pax, q[1], view.granted);
    TakesHolder(TurnOf(d, pax, q[0], view.granted));
    TakesHolder(TurnOf(Serve(d, pax, q[0], view.granted), pax, q[1], view.granted));
  }

  lemma TakesHolder(x: Turn)
    requires x.bc.claim.proposal.resource == FULL && x.victims == [Candidate(5, HOLDER, 1, OTHER)]
    ensures Taken(x) == {(FULL, HOLDER)}
  {
    hide SeatOf;
    assert PidSet(x.victims) == {HOLDER};
  }

  lemma TwoTurns(d: Desk, pax: Roster, q: seq<ClaimView>, granted: seq<ClaimView>)
    requires |q| == 2
    ensures Turns(d, pax, q, granted) == [TurnOf(d, pax, q[0], granted), TurnOf(Serve(d, pax, q[0], granted), pax, q[1], granted)]
  {
    hide TurnOf, Serve;
    assert q[..1] == [q[0]] && q[..1][..0] == [] && q == [q[0], q[1]];
    assert ServeAll(d, pax, [], granted) == d && Turns(d, pax, [], granted) == [];
    assert ServeAll(d, pax, [q[0]], granted) == Serve(d, pax, q[0], granted);
    assert Turns(d, pax, [q[0]], granted) == [TurnOf(d, pax, q[0], granted)];
  }

  /**
   * On this ledger, whatever deadlock names both waiting claims, the ruling picks the one holder twice, and the ledger
   * refuses one of its ops.
   */
  lemma TwoClaimsOneHolder(w: World, dl: Deadlock, ps: seq<Position>, ruling: nat, round: nat)
    requires w.ledger == TwoWaiting() && 2 in dl.claims && 3 in dl.claims
    ensures Sound(w.ledger) && RF.SeatsGrouped(w.ledger)
    ensures L.RuleOps(w.ledger, SeatsRuling(MediatorViewFor(w, round, ps, [dl]).base, Travellers(), dl).ops, ruling, round).out != L.Ok
  {
    hide *;
    var view := MediatorViewFor(w, round, ps, [dl]).base;
    MediatorSees(w, round, ps, [dl]);
    TwoWaitingSound();
    BothPickHolder(view, dl);
    var xs := RulingTurns(view, Travellers(), dl);
    NotClean(w.ledger, xs);
    SeatRulingRunsIffClean(w.ledger, view, Travellers(), dl, ruling, round);
  }

  lemma NotClean(s: L.State, xs: seq<Turn>)
    requires |xs| == 2 && Taken(xs[0]) == Taken(xs[1]) == {(FULL, HOLDER)}
    ensures !AllClean(s, xs)
  {
    hide Taken, Seats, L.HeldInGroup, SeatOf;
    assert xs[..1] == [xs[0]] && xs[..1][..0] == [];
    assert TakenBy([xs[0]]) == TakenBy([]) + Taken(xs[0]);
    assert (FULL, HOLDER) in TakenBy(xs[..1]);
    assert !Clean(s, xs[..1], xs[1]);
  }
}
