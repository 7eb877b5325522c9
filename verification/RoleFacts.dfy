/** Whom the role agents bid for and what they challenge and return, read off the view alone. */
module RoleFacts {
  import opened Order
  import opened Schemas
  import opened Rounds
  import opened Scenario
  import opened RebookingRounds
  import R = Rebooking
  import O = Roles
  import F = Fiat
  import L = Ledger

  // ---------------------------------------------------------------- who is shown to hold what

  /** The view shows the person holding a unit of the group. */
  ghost predicate ShownHolding(view: AgentView, group: Name, b: Name) {
    exists v :: v in view.granted && b in v.holders && v.claim.proposal.resource in view.resources
                && view.resources[v.claim.proposal.resource].group == Some(group)
  }

  /** One of the agent's own claims waits for the person, or serves them. */
  ghost predicate SpokenFor(view: AgentView, b: Name) {
    || (exists v :: v in view.myBlocked && b in v.claim.proposal.beneficiaries)
    || (exists v :: v in view.myGranted && b in v.holders)
  }

  lemma HoldingMeans(view: AgentView, group: Name, b: Name)
    ensures b in R.HoldingIn(view, group) <==> ShownHolding(view, group, b)
  {}

  lemma PendingMeans(view: AgentView, b: Name)
    ensures b in R.Pending(view) <==> SpokenFor(view, b)
  {}

  // ---------------------------------------------------------------- the rebooking desk's bids

  /** Legal for the flight, shown without a seat, and not spoken for. */
  ghost predicate Unserved(view: AgentView, x: Passenger, flight: Name) {
    flight in x.legal && !ShownHolding(view, "seat", x.id) && !SpokenFor(view, x.id)
  }

  lemma UnservedIs(view: AgentView, x: Passenger, flight: Name, taken: set<Name>)
    ensures R.OpenTo(view, x, flight, taken) <==> Unserved(view, x, flight) && x.id !in taken
    ensures CouldTake(view, x, flight) <==> Unserved(view, x, flight)
  {
    hide R.HoldingIn, R.Pending, ShownHolding, SpokenFor;
    HoldingMeans(view, SEAT, x.id);
    PendingMeans(view, x.id);
  }

  /** The private risk of missing a connection, 0 for whoever is not in the table. */
  function Risk(d: R.Desk, b: Name): int {
    if b in d.risk then d.risk[b] else 0
  }

  predicate AtLeastAsRisky(d: R.Desk, a: Name, b: Name) {
    Risk(d, a) > Risk(d, b) || (Risk(d, a) == Risk(d, b) && NameLe(a, b))
  }

  /** A seat bid of the round: only people of the roster who need the flight, the riskiest first. */
  ghost predicate RiskiestFirst(d: R.Desk, view: AgentView, flight: Name, p: Proposal) {
    && p.resource == SeatOf(flight)
    && (forall b :: b in p.beneficiaries ==> exists x :: x in d.pax && x.id == b && Unserved(view, x, flight))
    && (forall i, j :: 0 <= i < j < |p.beneficiaries| ==> AtLeastAsRisky(d, p.beneficiaries[i], p.beneficiaries[j]))
  }

  /** Whoever needs the flight, and is named in no bid of the round, risks no more than anyone the flight's bid names. */
  ghost predicate SparesTheSafest(d: R.Desk, view: AgentView, flight: Name, p: Proposal, ps: seq<Proposal>) {
    forall x, b :: x in d.pax && Unserved(view, x, flight) && b in p.beneficiaries && (forall q :: q in ps ==> x.id !in q.beneficiaries)
                   ==> AtLeastAsRisky(d, b, x.id)
  }

  lemma RightfulMeans(d: R.Desk, view: AgentView, w: R.Wave, taken: set<Name>, p: Proposal)
    requires R.Rightful(d, view, w, taken, p)
    ensures RiskiestFirst(d, view, w.flight, p)
  {
    hide Unserved, R.OpenTo, SeatOf, NameLe;
    forall x { UnservedIs(view, x, w.flight, taken); }
    forall i, j | 0 <= i < j < |p.beneficiaries| ensures AtLeastAsRisky(d, p.beneficiaries[i], p.beneficiaries[j]) {
      assert R.ByRisk(d)(p.beneficiaries[i], p.beneficiaries[j]);
    }
  }

  lemma RightfulSpares(d: R.Desk, view: AgentView, w: R.Wave, taken: set<Name>, p: Proposal, ps: seq<Proposal>)
    requires R.Rightful(d, view, w, taken, p) && p in ps && forall b :: b in taken ==> exists q :: q in ps && b in q.beneficiaries
    ensures SparesTheSafest(d, view, w.flight, p, ps)
  {
    hide Unserved, R.OpenTo, SeatOf, NameLe;
    forall x, b | x in d.pax && Unserved(view, x, w.flight) && b in p.beneficiaries && (forall q :: q in ps ==> x.id !in q.beneficiaries)
      ensures AtLeastAsRisky(d, b, x.id)
    {
      UnservedIs(view, x, w.flight, taken);
      assert x.id !in p.beneficiaries && R.RiskLe(d, b, x.id);
    }
  }

  /**
   * Every bid of a round but the ferry crew's is for a flight's seats, names only those who need it, the riskiest
   * first, and leaves nobody riskier out; and the ferry's crew is bid for in round 1 only.
   */
  lemma DeskBids(d: R.Desk, view: AgentView, p: Proposal)
    requires p in R.Propose(d, view)
    ensures (view.round == 1 && p.resource == "crew:FERRY-1" && p.beneficiaries == [d.crew])
            || exists flight :: RiskiestFirst(d, view, flight, p) && SparesTheSafest(d, view, flight, p, R.Propose(d, view))
  {
    hide R.Waves, R.ClaimWaves, R.Rightful, RiskiestFirst, SparesTheSafest, R.FerryProposal;
    var ws := R.Waves(view);
    var ps, all := R.ClaimWaves(d, view, ws), R.Propose(d, view);
    R.WavesAreBids(d, view, ws);
    if p in ps {
      var k :| 0 <= k < |ps| && ps[k] == p;
      var w :| w in ws && R.Rightful(d, view, w, R.NamedIn(ps[..k]), p);
      forall b | b in R.NamedIn(ps[..k]) ensures exists q :: q in all && b in q.beneficiaries {
        var q :| q in ps[..k] && b in q.beneficiaries;
        assert q in all;
      }
      RightfulMeans(d, view, w, R.NamedIn(ps[..k]), p);
      RightfulSpares(d, view, w, R.NamedIn(ps[..k]), p, all);
    }
  }

  /** In round 1 the ferry's crew is bid for. */
  lemma FerryIsBid(d: R.Desk, view: AgentView)
    requires view.round == 1
    ensures exists p :: p in R.Propose(d, view) && p.resource == "crew:FERRY-1" && p.beneficiaries == [d.crew]
  {
    hide R.ClaimWaves;
    assert R.FerryProposal(d) in R.Propose(d, view);
  }

  // ---------------------------------------------------------------- challenges of crew claims

  /** A granted crew claim of another agent's, which `me` has no open contest on. */
  ghost predicate OpenCrewClaim(view: AgentView, me: Name, v: ClaimView) {
    && v in view.granted && StartsWith(v.claim.proposal.resource, "crew:") && v.claim.proposal.agent != me
    && forall x :: x in view.openContests && x.agent == me ==> x.target != v.id
  }

  /** Crew legality blocks exactly those whose crew is known to be short of duty time. */
  lemma CrewBlocks(duty: map<Name, int>, required: int, view: AgentView, p: Position)
    requires p.stance == Block
    ensures p in O.CrewRespond(duty, required, view)
            <==> exists v :: OpenCrewClaim(view, "crew_legality", v) && p == Position("crew_legality", Block, v.id, None)
                             && var crew := v.claim.proposal.beneficiaries[0]; crew in duty && duty[crew] < required
  {
    hide StartsWith, O.Challenges, O.BackAdvocate;
    var bad: ClaimView -> bool := v => O.ShortOfDuty(duty, required, v);
    forall v ensures bad(v) == O.ShortOfDuty(duty, required, v) {}
    assert O.CrewRespond(duty, required, view) == O.Challenges(view, O.CREW_LEGALITY, bad, view.granted) + O.BackAdvocate(view);
  }

  /** The gate desk blocks every one of them. */
  lemma GateBlocks(view: AgentView, p: Position)
    ensures p in O.GateRespond(view) <==> exists v :: OpenCrewClaim(view, "gate_ground", v) && p == Position("gate_ground", Block, v.id, None)
  {
    hide StartsWith, O.Challenges;
  }

  // ---------------------------------------------------------------- gates

  /** One of the desk's gate claims is for the flight. */
  ghost predicate HasGate(view: AgentView, flight: Name) {
    exists v :: (v in view.myGranted || v in view.myBlocked) && StartsWith(v.claim.proposal.resource, "gate:")
                && v.claim.proposal.beneficiaries[0] == flight
  }

  lemma GatedMeans(view: AgentView, flight: Name)
    ensures flight in O.Gated(view) <==> HasGate(view, flight)
  {
    hide StartsWith;
  }

  lemma {:induction false} GateBidsPair(gates: seq<Name>, flights: seq<Flight>, have: set<Name>, p: Proposal)
    ensures p in O.GateBids(gates, flights, have)
            <==> exists i: nat :: i < |gates| && i < |flights| && flights[i].id !in have && p == O.GateBid(gates[i], flights[i].id)
    decreases |gates|
  {
    hide O.GateBid;
    if gates != [] && flights != [] {
      GateBidsPair(gates[1..], flights[1..], have, p);
      if i: nat :| i < |gates| && i < |flights| && flights[i].id !in have && p == O.GateBid(gates[i], flights[i].id) {
        if i > 0 { assert gates[1..][i-1] == gates[i] && flights[1..][i-1] == flights[i]; }
      }
      if i: nat :| i < |gates| - 1 && i < |flights| - 1 && flights[1..][i].id !in have && p == O.GateBid(gates[1..][i], flights[1..][i].id) {
        assert gates[i+1] == gates[1..][i] && flights[i+1] == flights[1..][i];
      }
    }
  }

  /** The flights by departure, then id. */
  ghost predicate ByDeparture(flights: seq<Flight>, order: seq<Flight>) {
    && multiset(order) == multiset(flights)
    && forall i: nat, j: nat :: i < j < |order| ==> order[i].dep < order[j].dep || (order[i].dep == order[j].dep && NameLe(order[i].id, order[j].id))
  }

  /** The first gate goes to the first departure and so on; a flight is left out when the desk has a gate claim for it. */
  lemma GatesInOrder(gates: seq<Name>, flights: seq<Flight>, view: AgentView)
    ensures exists order: seq<Flight> :: ByDeparture(flights, order)
              && forall p :: p in O.GateAgent(gates, flights).propose(view)
                             <==> exists i: nat :: i < |gates| && i < |order| && !HasGate(view, order[i].id) && p == O.GateBid(gates[i], order[i].id)
  {
    hide O.GateBid, O.GateBids, SortBy, NameLe, HasGate, O.Gated;
    var order := SortBy(flights, DepartureLe);
    NameOrder();
    DepartureOrder();
    SortBySorted(flights, DepartureLe);
    SortByElems(flights, DepartureLe);
    assert ByDeparture(flights, order);
    forall p { GateBidsPair(gates, order, O.Gated(view), p); }
    forall f { GatedMeans(view, f); }
    assert O.GateAgent(gates, flights).propose(view) == O.GateBids(gates, order, O.Gated(view));
  }

  lemma DepartureOrder()
    ensures Total(DepartureLe) && Transitive(DepartureLe)
  {
    NameOrder();
    hide NameLe;
  }

  // ---------------------------------------------------------------- rooms

  /** Exactly those who hold a room under the claim and a seat somewhere, once each, by name. */
  ghost predicate SeatedUnder(view: AgentView, v: ClaimView, names: seq<Name>) {
    Sorted(names, NameLe) && NoDup(names) && forall b :: b in names <==> b in v.holders && ShownHolding(view, "seat", b)
  }

  lemma SeatedHoldersAre(view: AgentView, v: ClaimView)
    ensures SeatedUnder(view, v, O.SeatedHolders(view, v))
  {
    hide R.HoldingIn, ShownHolding, NameLe;
    forall b { HoldingMeans(view, SEAT, b); }
  }

  lemma {:induction false} Vacates(view: AgentView, vs: seq<ClaimView>, p: Position)
    ensures p in O.Vacate(view, vs) <==> exists v :: v in vs && O.OnRooms(v) && O.SeatedHolders(view, v) != [] && p == O.ReturnOf(view, v)
    decreases |vs|
  {
    hide O.SeatedHolders, O.OnRooms, O.ReturnOf;
    if vs != [] {
      var n := |vs| - 1;
      Vacates(view, vs[..n], p);
      assert vs == vs[..n] + [vs[n]];
    }
  }

  /** The hotel desk yields, for each of its own room claims with a holder who has a seat by now, exactly those holders' rooms. */
  lemma RoomsReturned(view: AgentView, p: Position)
    ensures p in O.HotelRespond(view)
            <==> exists v, names :: v in view.myGranted && v.claim.proposal.resource == "hotel:block" && SeatedUnder(view, v, names) && names != []
                                    && p == Position("hotel", Yield, v.id, Some(names))
  {
    hide O.SeatedHolders, SeatedUnder, O.Vacate;
    Vacates(view, view.myGranted, p);
    forall v { SeatedHoldersAre(view, v); }
    forall v, names | SeatedUnder(view, v, names) ensures names == O.SeatedHolders(view, v) { SameNames(view, v, names); }
  }

  lemma SameNames(view: AgentView, v: ClaimView, names: seq<Name>)
    requires SeatedUnder(view, v, names)
    ensures names == O.SeatedHolders(view, v)
  {
    hide ShownHolding, NameLe, O.SeatedHolders;
    SeatedHoldersAre(view, v);
    NameOrder();
    SortedUnique(names, O.SeatedHolders(view, v), NameLe);
  }
}
