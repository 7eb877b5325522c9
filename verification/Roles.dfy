/** The three role agents beside rebooking and the advocate: crew legality, gates, and the hotel desk. */
module Roles {
  import opened Order
  import opened Schemas
  import opened Rounds
  import opened Scenario
  import R = Rebooking
  import A = Advocate
  import F = Fiat
  import L = Ledger

  const CREW_LEGALITY: Name := "crew_legality"
  const GATE_GROUND: Name := "gate_ground"
  const HOTEL_DESK: Name := "hotel"

  // ---------------------------------------------------------------- challenges against crew claims

  /** A granted crew claim of somebody else's that this agent has not challenged yet. */
  predicate Challengeable(view: AgentView, me: Name, v: ClaimView) {
    F.CrewClaim(v) && v.claim.proposal.agent != me && !R.Contests(view, me, v.id)
  }

  /** Challenges every such claim that `bad` condemns. */
  function Challenges(view: AgentView, me: Name, bad: ClaimView -> bool, vs: seq<ClaimView>): (ps: seq<Position>)
    ensures forall p :: p in ps ==> exists v :: v in vs && Challengeable(view, me, v) && bad(v) && p == Position(me, Block, v.id, None)
    ensures forall v :: v in vs && Challengeable(view, me, v) && bad(v) ==> Position(me, Block, v.id, None) in ps
    decreases |vs|
  {
    if vs == [] then []
    else
      var n := |vs| - 1;
      assert vs == vs[..n] + [vs[n]];
      Challenges(view, me, bad, vs[..n])
      + if Challengeable(view, me, vs[n]) && bad(vs[n]) then [Position(me, Block, vs[n].id, None)] else []
  }

  lemma NoChallenges(view: AgentView, me: Name, bad: ClaimView -> bool)
    ensures Challenges(view, me, bad, []) == []
  {}

  lemma MoreChallenges(view: AgentView, me: Name, bad: ClaimView -> bool, vs: seq<ClaimView>, i: nat)
    requires i < |vs|
    ensures Challenges(view, me, bad, vs[..i+1])
         == Challenges(view, me, bad, vs[..i]) + if Challengeable(view, me, vs[i]) && bad(vs[i]) then [Position(me, Block, vs[i].id, None)] else []
  {
    hide Challengeable;
    assert vs[..i+1][..i] == vs[..i];
  }

  method ChallengeEach(view: AgentView, me: Name, bad: ClaimView -> bool) returns (ps: seq<Position>)
    ensures ps == Challenges(view, me, bad, view.granted)
  {
    hide Challengeable, Challenges;
    var vs := view.granted;
    ps := [];
    NoChallenges(view, me, bad);
    for i := 0 to |vs|
      invariant ps == Challenges(view, me, bad, vs[..i])
    {
      MoreChallenges(view, me, bad, vs, i);
      if Challengeable(view, me, vs[i]) && bad(vs[i]) { ps := ps + [Position(me, Block, vs[i].id, None)]; }
    }
    assert vs[..|vs|] == vs;
  }

  // ---------------------------------------------------------------- crew legality

  /** The crew's known duty time does not cover the sector. */
  predicate ShortOfDuty(duty: map<Name, int>, required: int, v: ClaimView) {
    var crew := v.claim.proposal.beneficiaries[0];
    crew in duty && duty[crew] < required
  }

  /** Speaks up for the advocate's blocked claim on QW441 once the advocate has challenged somebody. */
  function BackAdvocate(view: AgentView): (ps: seq<Position>)
    ensures forall p :: p in ps ==> p.agent == CREW_LEGALITY && p.stance == Support
  {
    var waiting := R.FirstOn(Mine(view.blocked, A.NAME), SeatOf(A.QW441));
    if waiting.Some? && exists x :: x in view.openContests && x.agent == A.NAME
    then [Position(CREW_LEGALITY, Support, waiting.value.id, None)] else []
  }

  function CrewRespond(duty: map<Name, int>, required: int, view: AgentView): seq<Position> {
    Challenges(view, CREW_LEGALITY, v => ShortOfDuty(duty, required, v), view.granted) + BackAdvocate(view)
  }

  function CrewAgent(duty: map<Name, int>, required: int): (a: Agent)
    ensures a.name == CREW_LEGALITY
  {
    Agent(CREW_LEGALITY, v => [], v => CrewRespond(duty, required, v))
  }

  // ---------------------------------------------------------------- gates

  /** The flights my gate claims are already for. */
  function Gated(view: AgentView): set<Name> {
    set v | v in view.myGranted + view.myBlocked && StartsWith(v.claim.proposal.resource, GATE_PREFIX) :: v.claim.proposal.beneficiaries[0]
  }

  function GateBid(gate: Name, flight: Name): (p: Proposal)
    ensures p.agent == GATE_GROUND && p.resource == GateOf(gate) && p.beneficiaries == [flight]
  {
    var fields := ProposalFields.Proposal(GATE_GROUND, GateOf(gate), [flight], "gate assignment for " + flight + " departure", true);
    assert fields.beneficiaries == [flight];
    fields
  }

  /** Gate by gate the flights in order of departure, skipping those that have one. */
  function GateBids(gates: seq<Name>, flights: seq<Flight>, have: set<Name>): (ps: seq<Proposal>)
    ensures forall p :: p in ps ==> p.agent == GATE_GROUND && p.beneficiaries[0] !in have
    ensures forall i :: 0 <= i < |gates| && i < |flights| && flights[i].id !in have ==> GateBid(gates[i], flights[i].id) in ps
    decreases |gates|
  {
    if gates == [] || flights == [] then []
    else
      (if flights[0].id in have then [] else [GateBid(gates[0], flights[0].id)]) + GateBids(gates[1..], flights[1..], have)
  }

  /** No gate is left for an extra section. */
  function GateRespond(view: AgentView): seq<Position> {
    Challenges(view, GATE_GROUND, v => true, view.granted)
  }

  function GateAgent(gates: seq<Name>, flights: seq<Flight>): (a: Agent)
    ensures a.name == GATE_GROUND
  {
    Agent(GATE_GROUND, v => GateBids(gates, SortBy(flights, DepartureLe), Gated(v)),
          v => GateRespond(v))
  }

  method AssignGates(gates: seq<Name>, flights: seq<Flight>, view: AgentView) returns (ps: seq<Proposal>)
    ensures ps == GateBids(gates, SortBy(flights, DepartureLe), Gated(view))
  {
    hide *;
    var order, have := SortBy(flights, DepartureLe), Gated(view);
    ps := [];
    var i := 0;
    assert gates[0..] == gates && order[0..] == order;
    while i < |gates| && i < |order|
      invariant i <= |gates| && i <= |order| && ps + GateBids(gates[i..], order[i..], have) == GateBids(gates, order, have)
    {
      GatesFrom(gates, order, have, i);
      if order[i].id !in have { ps := ps + [GateBid(gates[i], order[i].id)]; }
      i := i + 1;
    }
    NoGatesLeft(gates[i..], order[i..], have);
  }

  lemma NoGatesLeft(gates: seq<Name>, flights: seq<Flight>, have: set<Name>)
    requires gates == [] || flights == []
    ensures GateBids(gates, flights, have) == []
  {}

  lemma GatesFrom(gates: seq<Name>, order: seq<Flight>, have: set<Name>, i: nat)
    requires i < |gates| && i < |order|
    ensures GateBids(gates[i..], order[i..], have)
         == (if order[i].id in have then [] else [GateBid(gates[i], order[i].id)]) + GateBids(gates[i+1..], order[i+1..], have)
  {
    hide GateBid;
    assert gates[i..][1..] == gates[i+1..] && order[i..][1..] == order[i+1..];
  }

  // ---------------------------------------------------------------- the hotel desk

  type Passengers = R.Passengers

  predicate ByPax(a: Passenger, b: Passenger) { NameLe(a.id, b.id) }

  /** The best protected first, then the earlier booking. */
  predicate NeedierFirst(a: Passenger, b: Passenger) {
    if Priority(a) != Priority(b) then Priority(a) < Priority(b) else a.booking <= b.booking
  }

  /** Without a seat and without a room. */
  predicate Stranded(view: AgentView, p: Passenger) {
    p.id !in R.Seated(view) && p.id !in R.HoldingIn(view, HOTEL_GROUP)
  }

  function AllStranded(view: AgentView, pax: seq<Passenger>): (r: seq<Passenger>)
    ensures forall p :: p in r <==> p in pax && Stranded(view, p)
    ensures Distinct(pax) ==> Distinct(r)
    decreases |pax|
  {
    if pax == [] then []
    else
      var rest := AllStranded(view, pax[1..]);
      assert pax == [pax[0]] + pax[1..];
      assert Distinct(pax) ==> forall p :: p in pax[1..] ==> p.id != pax[0].id;
      if Stranded(view, pax[0]) then [pax[0]] + rest else rest
  }

  function Ids(pax: seq<Passenger>): (r: seq<Name>)
    ensures |r| == |pax| && forall i :: 0 <= i < |r| ==> r[i] == pax[i].id
    ensures Distinct(pax) ==> NoDup(r)
  {
    seq(|pax|, i requires 0 <= i < |pax| => pax[i].id)
  }

  function Lodgers(view: AgentView, pax: Passengers): (r: seq<Name>)
    ensures NoDup(r)
  {
    SortedDistinct(pax, ByPax);
    var waiting := AllStranded(view, SortBy(pax, ByPax));
    SortedDistinct(waiting, NeedierFirst);
    Ids(SortBy(waiting, NeedierFirst))
  }

  /** From round 3 on, one claim for as many of the stranded as there are rooms. */
  function HotelPropose(pax: Passengers, view: AgentView): (ps: seq<Proposal>)
    ensures forall p :: p in ps ==> p.agent == HOTEL_DESK && p.resource == HOTEL
  {
    var lodgers := Lodgers(view, pax);
    var n := Min(R.FreeOn(view, HOTEL), |lodgers|);
    if view.round < 3 || n <= 0 then []
    else
      var fields := ProposalFields.Proposal(HOTEL_DESK, HOTEL, lodgers[..n], "distressed-passenger lodging, protected categories first", true);
      assert fields.beneficiaries == lodgers[..n];
      [fields]
  }

  /** Whose room under the claim can be returned, now that they have a seat. */
  function SeatedHolders(view: AgentView, v: ClaimView): seq<Name> {
    L.SortedNames(Elems(v.holders) * R.Seated(view))
  }

  function ReturnOf(view: AgentView, v: ClaimView): Position {
    Position(HOTEL_DESK, Yield, v.id, Some(SeatedHolders(view, v)))
  }

  /** Yields, claim by claim, the rooms of those who have a seat. */
  function Vacate(view: AgentView, vs: seq<ClaimView>): seq<Position>
    decreases |vs|
  {
    if vs == [] then []
    else
      var n := |vs| - 1;
      Vacate(view, vs[..n]) + if OnRooms(vs[n]) && SeatedHolders(view, vs[n]) != [] then [ReturnOf(view, vs[n])] else []
  }

  predicate OnRooms(v: ClaimView) {
    R.OnResource(v, HOTEL)
  }

  function HotelRespond(view: AgentView): seq<Position> {
    Vacate(view, view.myGranted)
  }

  function HotelAgent(pax: Passengers): (a: Agent)
    ensures a.name == HOTEL_DESK
  {
    Agent(HOTEL_DESK, v => HotelPropose(pax, v), v => HotelRespond(v))
  }

  method ReturnRooms(view: AgentView) returns (ps: seq<Position>)
    ensures ps == HotelRespond(view)
  {
    hide SeatedHolders;
    var vs := view.myGranted;
    ps := [];
    for i := 0 to |vs|
      invariant ps == Vacate(view, vs[..i])
    {
      assert vs[..i+1][..i] == vs[..i];
      var release := SeatedHolders(view, vs[i]);
      if OnRooms(vs[i]) && release != [] { ps := ps + [ReturnOf(view, vs[i])]; }
    }
    assert vs[..|vs|] == vs;
  }
}
