/** A whole run of the single planner: resources, crew, gates, then the seat loop on the ledger object. */
module PlannerRun {
  import opened Order
  import opened Schemas
  import opened Ledger
  import opened LedgerFacts
  import opened LedgerObject
  import opened Books
  import opened ChainLog
  import opened Scenario
  import opened Baseline
  import opened AuditFacts
  import V = Verify

  // ---------------------------------------------------------------- before the seats

  predicate ValidStorm(storm: Storm) {
    && storm.crews != [] && Distinct(storm.pax)
    && (forall i, j :: 0 <= i < j < |storm.flights| ==> storm.flights[i].id != storm.flights[j].id)
    && (forall p, f :: p in storm.pax && f in p.legal ==> exists x :: x in storm.flights && x.id == f)
  }

  function SeatResources(flights: seq<Flight>): (calls: seq<Call>)
    ensures |calls| == |flights|
    ensures forall i :: 0 <= i < |calls| ==> calls[i] == Call(DoRegister(SeatOf(flights[i].id), flights[i].seats, Some(SEAT)), 0)
  {
    seq(|flights|, i requires 0 <= i < |flights| => Call(DoRegister(SeatOf(flights[i].id), flights[i].seats, Some(SEAT)), 0))
  }

  function GateResources(gates: seq<Name>): (calls: seq<Call>)
    ensures |calls| == |gates|
    ensures forall i :: 0 <= i < |calls| ==> calls[i] == Call(DoRegister(GateOf(gates[i]), 1, None), 0)
  {
    seq(|gates|, i requires 0 <= i < |gates| => Call(DoRegister(GateOf(gates[i]), 1, None), 0))
  }

  function UnitClaim(resource: Name, beneficiary: Name, basis: string): (p: Proposal)
    ensures p.resource == resource && p.beneficiaries == [beneficiary]
  {
    var fields := ProposalFields.Proposal(PLANNER, resource, [beneficiary], basis, true);
    assert fields.beneficiaries == [beneficiary];
    fields
  }

  /** Gates go to flights in order of departure, as far as both last. */
  function GateClaims(gates: seq<Name>, flights: seq<Flight>): (calls: seq<Call>)
    ensures |calls| == Min(|gates|, |flights|)
    ensures forall i :: 0 <= i < |calls| ==> calls[i] == Call(DoSubmit(UnitClaim(GateOf(gates[i]), flights[i].id, "gate for " + flights[i].id)), ROUND)
    decreases |gates|
  {
    if gates == [] || flights == [] then []
    else
      var first := UnitClaim(GateOf(gates[0]), flights[0].id, "gate for " + flights[0].id);
      [Call(DoSubmit(first), ROUND)] + GateClaims(gates[1..], flights[1..])
  }

  /** Everything the planner does before it seats anyone. */
  function Preamble(storm: Storm): seq<Call>
    requires storm.crews != []
  {
    SeatResources(storm.flights)
    + ([Call(DoRegister(FERRY, 1, None), 0)] + GateResources(storm.gates) + [Call(DoRegister(HOTEL, storm.hotel, Some(HOTEL_GROUP)), 0)]
       + [Call(DoSubmit(UnitClaim(FERRY, storm.crews[0], "crew the extra ferry section for +50 seats of throughput")), ROUND)]
       + GateClaims(storm.gates, SortBy(storm.flights, DepartureLe)))
  }

  /** Calls that leave the seats alone: the seat group is for seats, and no seat is claimed. */
  predicate Tame(call: Call) {
    match call.op
    case DoRegister(id, _, group) => group == Some(SEAT) ==> IsSeat(id)
    case DoSubmit(p) => !IsSeat(p.resource)
    case _ => false
  }

  ghost predicate SeatsFree(s: State) {
    && Sound(s)
    && (forall r :: r in s.resources && s.resources[r].group == Some(SEAT) ==> IsSeat(r))
    && (forall k :: k in s.allocs ==> !IsSeat(k.0))
  }

  lemma TameStep(s: State, c: Crypto, call: Call)
    requires SeatsFree(s) && Tame(call)
    ensures SeatsFree(Do(s, c, call.op, call.round).state)
  {
    hide Sound, Evolves, IsSeat, TryAllocate;
    DoGood(s, c, call.op, call.round);
    if call.op.DoSubmit? {
      TameSubmit(s, call.op.proposal, call.round);
      hide SubmitPlain;
    }
  }

  lemma TameSubmit(s: State, p: Proposal, round: nat)
    ensures var t := SubmitPlain(s, p, round).state; t.resources == s.resources && forall k :: k in t.allocs ==> k in s.allocs || k.0 == p.resource
  {}

  lemma {:induction false} TamePlay(r: Run, c: Crypto, calls: seq<Call>)
    requires SeatsFree(r.state) && forall x :: x in calls ==> Tame(x)
    ensures SeatsFree(Play(r, c, calls).state)
    decreases |calls|
  {
    hide SeatsFree, Do, Tame;
    if calls != [] {
      assert calls[0] in calls;
      TameStep(r.state, c, calls[0]);
      var st := Do(r.state, c, calls[0].op, calls[0].round);
      TamePlay(Run(st.state, r.log + Stamp(calls[0].round, st.events)), c, calls[1..]);
    }
  }

  lemma {:induction false} SeatsRegistered(r: Run, c: Crypto, flights: seq<Flight>, i: nat)
    requires Sound(r.state) && Tells(c, r.log, r.state) && i < |flights|
    requires forall a, b :: 0 <= a < b < |flights| ==> flights[a].id != flights[b].id
    requires forall f :: f in flights ==> SeatOf(f.id) !in r.state.resources
    ensures var s := Play(r, c, SeatResources(flights)).state;
            SeatOf(flights[i].id) in s.resources && s.resources[SeatOf(flights[i].id)] == Resource(flights[i].seats, Some(SEAT))
    decreases |flights|
  {
    hide Sound, Tells, SeatOf, AccountsOf;
    var calls, f := SeatResources(flights), flights[0];
    var st := Do(r.state, c, calls[0].op, calls[0].round);
    var next := Run(st.state, r.log + Stamp(calls[0].round, st.events));
    assert f in flights;
    assert calls[1..] == SeatResources(flights[1..]);
    DoGood(r.state, c, calls[0].op, calls[0].round);
    TellsStep(r.state, c, r.log, st, calls[0].round);
    assert st.state.resources == r.state.resources[SeatOf(f.id) := Resource(f.seats, Some(SEAT))];
    if i == 0 {
      PlayGood(next, c, calls[1..]);
    } else {
      forall g | g in flights[1..] ensures SeatOf(g.id) !in st.state.resources { SeatOfInjective(g.id, f.id); }
      SeatsRegistered(next, c, flights[1..], i - 1);
    }
  }

  lemma NotSeats(gate: Name)
    ensures !IsSeat(FERRY) && !IsSeat(HOTEL) && !IsSeat(GateOf(gate))
  {
    assert FERRY[0] == 'c' && HOTEL[0] == 'h' && GateOf(gate)[0] == 'g' && SEAT_PREFIX[0] == 's';
  }

  lemma PreambleTame(storm: Storm)
    requires storm.crews != []
    ensures forall x :: x in Preamble(storm) ==> Tame(x)
  {
    hide IsSeat, GateOf, SeatOf, SeatResources, GateResources, GateClaims, SortBy, UnitClaim;
    var gates, claims := GateResources(storm.gates), GateClaims(storm.gates, SortBy(storm.flights, DepartureLe));
    SeatsTame(storm.flights);
    GatesTame(storm.gates);
    ClaimsTame(storm.gates, SortBy(storm.flights, DepartureLe));
    NotSeats("");
    assert Tame(Call(DoSubmit(UnitClaim(FERRY, storm.crews[0], "crew the extra ferry section for +50 seats of throughput")), ROUND));
  }

  lemma SeatsTame(flights: seq<Flight>)
    ensures forall x :: x in SeatResources(flights) ==> Tame(x)
  {
    hide SeatOf, IsSeat;
    forall x | x in SeatResources(flights) ensures Tame(x) {
      var i :| 0 <= i < |flights| && x == SeatResources(flights)[i];
      SeatOfInjective(flights[i].id, flights[i].id);
    }
  }

  lemma GatesTame(gates: seq<Name>)
    ensures forall x :: x in GateResources(gates) ==> Tame(x)
  {}

  lemma ClaimsTame(gates: seq<Name>, flights: seq<Flight>)
    ensures forall x :: x in GateClaims(gates, flights) ==> Tame(x)
  {
    hide IsSeat, GateOf, GateClaims;
    forall x | x in GateClaims(gates, flights) ensures Tame(x) {
      var i :| 0 <= i < |GateClaims(gates, flights)| && x == GateClaims(gates, flights)[i];
      NotSeats(gates[i]);
    }
  }

  function Opening(header: string): Run {
    Run(EMPTY, [Stamped(0, Genesis(header))])
  }

  lemma OpeningGood(c: Crypto, header: string)
    ensures Sound(EMPTY) && SeatsFree(EMPTY) && Tells(c, Opening(header).log, EMPTY)
  {
    EmptyGood(c);
    ReadSilent(BLANK, Opening(header).log);
  }

  /** The ledger and log as the seat loop finds them. */
  function Before(c: Crypto, header: string, storm: Storm): Run
    requires storm.crews != []
  {
    Play(Opening(header), c, Preamble(storm))
  }

  lemma SeatsStayRegistered(c: Crypto, header: string, storm: Storm, f: Flight)
    requires ValidStorm(storm) && f in storm.flights
    ensures var s := Before(c, header, storm).state;
            SeatOf(f.id) in s.resources && s.resources[SeatOf(f.id)] == Resource(f.seats, Some(SEAT))
  {
    hide Sound, Tells, SeatOf, Play, SortBy, GateClaims;
    var r, seats := Opening(header), SeatResources(storm.flights);
    var rest := Preamble(storm)[|seats|..];
    assert Preamble(storm) == seats + rest;
    OpeningGood(c, header);
    PlayGood(r, c, seats);
    PlayConcat(r, c, seats, rest);
    PlayGood(Play(r, c, seats), c, rest);
    var i :| 0 <= i < |storm.flights| && storm.flights[i] == f;
    SeatsRegistered(r, c, storm.flights, i);
  }

  lemma ReadyToBoard(c: Crypto, header: string, storm: Storm)
    requires ValidStorm(storm)
    ensures Boarding(Before(c, header, storm).state, storm.pax)
  {
    hide Sound, Tells, SeatOf, IsSeat, Before, Play, Preamble;
    var s := Before(c, header, storm).state;
    forall p, f | p in storm.pax && f in p.legal ensures SeatOf(f) in s.resources && s.resources[SeatOf(f)].group == Some(SEAT) {
      var x :| x in storm.flights && x.id == f;
      SeatsStayRegistered(c, header, storm, x);
    }
    BeforeFree(c, header, storm);
    GroupsOfAllocs(s);
  }

  lemma BeforeFree(c: Crypto, header: string, storm: Storm)
    requires ValidStorm(storm)
    ensures SeatsFree(Before(c, header, storm).state)
  {
    hide SeatsFree, Tells, Preamble, Tame, Play;
    OpeningGood(c, header);
    PreambleTame(storm);
    TamePlay(Opening(header), c, Preamble(storm));
  }

  lemma GroupsOfAllocs(s: State)
    requires SeatsFree(s)
    ensures forall k :: k in s.allocs ==> s.allocs[k].group != Some(SEAT)
  {
    hide Within, Exclusive, Filed, IsSeat;
  }

  // ---------------------------------------------------------------- the run

  function Planned(c: Crypto, header: string, storm: Storm): Run
    requires storm.crews != []
  {
    Plan(Before(c, header, storm), storm.pax, storm.flights)
  }

  /** The log of a planner run, manifest line included. */
  function PlannerLog(c: Crypto, header: string, storm: Storm): Log
    requires storm.crews != []
  {
    var r := Planned(c, header, storm);
    r.log + Stamp(ROUND, [ManifestRecorded(ManifestNow(r.state), ManifestHash(c, ManifestNow(r.state)), ROUND, true)])
  }

  /** Every flight a passenger would rather have ends with every seat held by someone ahead in commercial order. */
  lemma PlannerRunIsStable(c: Crypto, header: string, storm: Storm, j: nat, f: Flight)
    requires ValidStorm(storm) && j < |storm.pax| && f in storm.flights
    ensures var order, t := SortBy(storm.pax, CommercialLe), Planned(c, header, storm).state;
            && |order| == |storm.pax| && Sorted(order, CommercialLe)
            && (f.id in order[j].legal && Prefers(t, order[j], f.id, storm.flights) ==>
                  Used(t.allocs, SeatOf(f.id)) == f.seats && forall k :: k in t.allocs && k.0 == SeatOf(f.id) ==> IdIn(k.1, order[..j]))
            && forall i :: i in t.claims && i !in Before(c, header, storm).state.claims ==> t.claims[i].status == Granted
  {
    hide Sound, Before, Plan, Lawful, SortBy, CommercialLe, Used, FlightLe, SeatOf, Boarding, Prefers;
    var r := Before(c, header, storm);
    ReadyToBoard(c, header, storm);
    PlannerIsStable(r, storm.pax, storm.flights, c);
    SeatsStayRegistered(c, header, storm, f);
    SortByElems(storm.pax, CommercialLe);
    assert Stable(Planned(c, header, storm).state, SortBy(storm.pax, CommercialLe), j, storm.flights);
  }

  /** No assignment within the seats and the law seats more than twice as many. */
  lemma PlannerRunSeatsHalf(c: Crypto, header: string, storm: Storm, a: map<Name, Name>)
    requires ValidStorm(storm)
    requires forall b :: b in a ==> exists p :: p in storm.pax && p.id == b && a[b] in p.legal
    requires forall f :: f in storm.flights ==> |Riders(a, f.id)| <= f.seats
    ensures |a| <= 2 * |SeatedIds(Planned(c, header, storm).state)|
  {
    hide Sound, Before, Plan, Riders, SeatedIds, SeatOf, Boarding;
    var r := Before(c, header, storm);
    ReadyToBoard(c, header, storm);
    forall f | SeatOf(f) in r.state.resources ensures |Riders(a, f)| <= r.state.resources[SeatOf(f)].capacity {
      if x :| x in storm.flights && x.id == f {
        SeatsStayRegistered(c, header, storm, x);
      } else {
        NoRiders(storm, a, f);
      }
    }
    PlannerSeatsHalf(r, storm.pax, storm.flights, c, a);
  }

  lemma NoRiders(storm: Storm, a: map<Name, Name>, f: Name)
    requires ValidStorm(storm) && forall b :: b in a ==> exists p :: p in storm.pax && p.id == b && a[b] in p.legal
    requires forall x :: x in storm.flights ==> x.id != f
    ensures Riders(a, f) == {}
  {
    forall b | b in a ensures a[b] != f { var p :| p in storm.pax && p.id == b && a[b] in p.legal; }
  }

  // ---------------------------------------------------------------- its log

  ghost predicate CleanBooks(c: Crypto, r: Run) {
    Sound(r.state) && Tells(c, r.log, r.state) && V.RulingsCite(r.log) && r.log != [] && r.log[0].event.Genesis?
  }

  lemma CleanStep(c: Crypto, r: Run, call: Call)
    requires CleanBooks(c, r) && (call.op.DoRegister? || call.op.DoSubmit?)
    ensures var st := Do(r.state, c, call.op, call.round); CleanBooks(c, Run(st.state, r.log + Stamp(call.round, st.events)))
  {
    hide Sound, Tells, Evolves;
    var st := Do(r.state, c, call.op, call.round);
    DoGood(r.state, c, call.op, call.round);
    TellsStep(r.state, c, r.log, st, call.round);
    NoRulingLine(r.state, c, call);
    assert forall e :: e in r.log + Stamp(call.round, st.events) ==> e in r.log || e.event in st.events;
    hide Do;
  }

  lemma NoRulingLine(s: State, c: Crypto, call: Call)
    requires call.op.DoRegister? || call.op.DoSubmit?
    ensures forall e :: e in Do(s, c, call.op, call.round).events ==> !e.RulingSigned?
  {
    hide TryAllocate;
  }

  lemma {:induction false} CleanPlay(c: Crypto, r: Run, calls: seq<Call>)
    requires CleanBooks(c, r) && forall x :: x in calls ==> Tame(x)
    ensures CleanBooks(c, Play(r, c, calls))
    decreases |calls|
  {
    hide CleanBooks, Do, IsSeat;
    if calls != [] {
      assert Tame(calls[0]);
      CleanStep(c, r, calls[0]);
      var st := Do(r.state, c, calls[0].op, calls[0].round);
      CleanPlay(c, Run(st.state, r.log + Stamp(calls[0].round, st.events)), calls[1..]);
    }
  }

  lemma {:induction false} CleanSeats(c: Crypto, r: Run, order: seq<Passenger>, flights: seq<Flight>)
    requires CleanBooks(c, r)
    ensures CleanBooks(c, SeatAll(r, order, flights))
    decreases |order|
  {
    hide CleanBooks, SubmitPlain, HasRoom, SortBy;
    if order != [] {
      var prefix, p := SeatAll(r, order[..|order|-1], flights), order[|order|-1];
      CleanSeats(c, r, order[..|order|-1], flights);
      match FirstOpen(prefix.state, SortBy(p.legal, ByArrival(flights)))
      case None =>
      case Some(f) => CleanStep(c, prefix, Call(DoSubmit(SeatClaim(p, f)), ROUND));
    }
  }

  /** The auditor accepts every planner run. */
  lemma PlannerRunVerifies(c: Crypto, header: string, storm: Storm)
    requires ValidStorm(storm)
    ensures V.Passes(c, Chain(c, PlannerLog(c, header, storm)))
  {
    hide Sound, Tells, V.Passes, Play, Preamble, Tame, SeatAll, SortBy, Chain, CommercialLe;
    OpeningGood(c, header);
    PreambleTame(storm);
    CleanPlay(c, Opening(header), Preamble(storm));
    CleanSeats(c, Before(c, header, storm), SortBy(storm.pax, CommercialLe), storm.flights);
    var r := Planned(c, header, storm);
    Recorded(c, r);
    SoundPasses(c, r.state, PlannerLog(c, header, storm));
  }

  lemma Recorded(c: Crypto, r: Run)
    requires CleanBooks(c, r)
    ensures var m := ManifestNow(r.state);
            var log := r.log + Stamp(ROUND, [ManifestRecorded(m, ManifestHash(c, m), ROUND, true)]);
            CleanBooks(c, Run(r.state, log)) && V.LastManifest(log) == Some(V.Recorded(m, ManifestHash(c, m)))
  {
    assert Evolves(r.state, r.state);
    hide Sound, ManifestNow, Evolves;
    var m := ManifestNow(r.state);
    var st := Step(r.state, [ManifestRecorded(m, ManifestHash(c, m), ROUND, true)], Ok);
    GoodQuiet(r.state, c, r.state, st.events[0], Ok, ROUND);
    TellsStep(r.state, c, r.log, st, ROUND);
    hide Tells;
  }

  // ---------------------------------------------------------------- the loop on the ledger object

  /** The seat loop: each passenger in turn takes the first flight with a seat left. */
  method SeatPassengers(ledger: ClaimLedger, pax: seq<Passenger>, flights: seq<Flight>)
    requires ledger.Valid()
    requires forall p, f :: p in pax && f in p.legal ==> SeatOf(f) in ledger.resources
    modifies ledger, ledger.log
    ensures ledger.Valid()
    ensures Run(ledger.Value(), ledger.log.Lines()) == Plan(Run(old(ledger.Value()), old(ledger.log.Lines())), pax, flights)
  {
    hide ledger.log.Valid, ledger.log.Lines, SeatAll, SeatOne, CommercialLe, SeatOf, SortBy;
    var order := SortBy(pax, CommercialLe);
    ghost var r0 := Run(ledger.Value(), ledger.log.Lines());
    SortByElems(pax, CommercialLe);
    assert SeatAll(r0, order[..0], flights) == r0 by { SeatNone(r0, flights); }
    for i := 0 to |order|
      invariant ledger.Valid() && ledger.resources == old(ledger.resources)
      invariant Run(ledger.Value(), ledger.log.Lines()) == SeatAll(r0, order[..i], flights)
    {
      assert order[i] in pax;
      SeatNext(ledger, order[i], flights);
      SeatAllStep(r0, order, i, flights);
    }
    assert order[..|order|] == order;
  }

  lemma SeatNone(r: Run, flights: seq<Flight>)
    ensures SeatAll(r, [], flights) == r
  {}

  lemma SeatAllStep(r: Run, order: seq<Passenger>, i: nat, flights: seq<Flight>)
    requires i < |order|
    ensures SeatAll(r, order[..i+1], flights) == SeatOne(SeatAll(r, order[..i], flights), order[i], flights)
  {
    hide SeatOne;
    assert order[..i+1][..i] == order[..i];
  }

  method SeatNext(ledger: ClaimLedger, p: Passenger, flights: seq<Flight>)
    requires ledger.Valid()
    requires forall f :: f in p.legal ==> SeatOf(f) in ledger.resources
    modifies ledger, ledger.log
    ensures ledger.Valid() && ledger.resources == old(ledger.resources)
    ensures Run(ledger.Value(), ledger.log.Lines()) == SeatOne(Run(old(ledger.Value()), old(ledger.log.Lines())), p, flights)
  {
    hide ledger.log.Valid, ledger.log.Lines, SubmitPlain, Stamp, Free, SeatOf, FirstOpen, SeatOne, SortBy, SeatClaim;
    var legal := SortBy(p.legal, ByArrival(flights));
    SortByElems(p.legal, ByArrival(flights));
    ghost var r := Run(ledger.Value(), ledger.log.Lines());
    assert legal[0..] == legal;
    for j := 0 to |legal|
      invariant ledger.Valid() && ledger.Value() == r.state && ledger.log.Lines() == r.log
      invariant FirstOpen(r.state, legal) == FirstOpen(r.state, legal[j..])
    {
      OpenFrom(r.state, legal, j);
      assert legal[j] in p.legal;
      var room := ledger.FreeUnits(SeatOf(legal[j]));
      if room.value >= 1 {
        SubmitKeepsResources(r.state, SeatClaim(p, legal[j]));
        SeatOneIs(r, p, flights);
        var out := ledger.SubmitPlain(SeatClaim(p, legal[j]), ROUND);
        return;
      }
    }
    OpenFrom(r.state, legal, |legal|);
    SeatOneIs(r, p, flights);
  }

  lemma OpenFrom(s: State, choices: seq<Name>, j: nat)
    requires j <= |choices|
    ensures FirstOpen(s, choices[j..]) == if j == |choices| then None else if HasRoom(s, choices[j]) then Some(choices[j]) else FirstOpen(s, choices[j+1..])
  {
    hide HasRoom;
    if j < |choices| { assert choices[j..][0] == choices[j] && choices[j..][1..] == choices[j+1..]; }
  }

  lemma SeatOneIs(r: Run, p: Passenger, flights: seq<Flight>)
    ensures SeatOne(r, p, flights)
         == match FirstOpen(r.state, SortBy(p.legal, ByArrival(flights))) { case None => r case Some(f) => Submit(r, SeatClaim(p, f)) }
  {
    hide FirstOpen, Submit, SeatClaim;
  }

  lemma SubmitKeepsResources(s: State, p: Proposal)
    ensures SubmitPlain(s, p, ROUND).state.resources == s.resources
  {}
}
