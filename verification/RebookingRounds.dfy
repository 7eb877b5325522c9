/** Which flights the rebooking desk bids for in which round, for how many seats, and that it leaves nobody out it could take. */
module RebookingRounds {
  import opened Order
  import opened Schemas
  import opened Rounds
  import opened Scenario
  import opened Rebooking
  import RF = RebookingFacts

  /** One of the desk's own claims waits for the flight. */
  predicate Waits(view: AgentView, flight: Name) {
    exists v :: v in view.myBlocked && v.claim.proposal.resource == SeatOf(flight)
  }

  /** Seats that others hold on the resource. */
  function OthersHold(vs: seq<ClaimView>, r: Name): nat {
    if vs == [] then 0
    else (if vs[0].claim.proposal.resource == r && vs[0].claim.proposal.agent != NAME then |vs[0].holders| else 0) + OthersHold(vs[1..], r)
  }

  /**
   * What the desk goes for: in round 1 all of QW441 and at most 15 seats of QW519; in round 2 QW519, free or held by others,
   * unless it waits for it already, and what is free on QW338; from then on what is free on each late flight it does
   * not wait for.
   */
  predicate GoesFor(view: AgentView, flight: Name, qty: int) {
    var free := FreeOn(view, SeatOf(flight));
    if view.round == 1 then (flight == "QW441" && qty == free) || (flight == "QW519" && qty == Min(15, free))
    else if view.round == 2 then (flight == "QW519" && !Waits(view, flight) && qty == free + OthersHold(view.granted, SeatOf(flight))) || (flight == "QW338" && qty == free)
    else flight in ["QW519", "QW602", "QW338", "QW258", "QW777"] && !Waits(view, flight) && qty == free
  }

  lemma WaitsFirst(view: AgentView, flight: Name)
    ensures FirstOn(view.myBlocked, SeatOf(flight)).Some? <==> Waits(view, flight)
  {
    hide SeatOf;
  }

  lemma {:induction false} HeldInserted(x: ClaimView, vs: seq<ClaimView>)
    ensures HeldBy(Insert(x, vs, BiggerFirst)) == |x.holders| + HeldBy(vs)
    decreases |vs|
  {
    if vs != [] && !BiggerFirst(x, vs[0]) { HeldInserted(x, vs[1..]); }
  }

  lemma {:induction false} HeldSorted(vs: seq<ClaimView>)
    ensures HeldBy(SortBy(vs, BiggerFirst)) == HeldBy(vs)
    decreases |vs|
  {
    if vs != [] {
      HeldSorted(vs[1..]);
      HeldInserted(vs[0], SortBy(vs[1..], BiggerFirst));
    }
  }

  lemma {:induction false} RivalsHold(vs: seq<ClaimView>, r: Name)
    ensures HeldBy(RivalsIn(vs, r, NAME)) == OthersHold(vs, r)
    decreases |vs|
  {
    if vs != [] {
      RivalsHold(vs[1..], r);
      var rest := RivalsIn(vs[1..], r, NAME);
      assert [] + rest == rest;
      assert ([vs[0]] + rest)[1..] == rest;
    }
  }

  lemma {:induction false} FillGoes(view: AgentView, flights: seq<Name>, w: Wave)
    ensures w in FillWaves(view, flights) ==> w.flight in flights && !Waits(view, w.flight) && w.qty == FreeOn(view, SeatOf(w.flight))
    decreases |flights|
  {
    hide SeatOf, FreeOn;
    if flights != [] {
      FillGoes(view, flights[1..], w);
      WaitsFirst(view, flights[0]);
    }
  }

  lemma {:induction false} FillHas(view: AgentView, flights: seq<Name>, flight: Name)
    requires flight in flights && !Waits(view, flight)
    ensures exists w :: w in FillWaves(view, flights) && w.flight == flight && w.qty == FreeOn(view, SeatOf(flight))
    decreases |flights|
  {
    hide SeatOf, FreeOn;
    var w := WaveOn(view, flights[0], "fill remaining seats by connection risk");
    if flights[0] == flight {
      WaitsFirst(view, flight);
      assert w in FillWaves(view, flights);
    } else {
      FillHas(view, flights[1..], flight);
    }
  }

  lemma RivalSeats(view: AgentView, r: Name)
    ensures HeldBy(Rivals(view, r, NAME)) == OthersHold(view.granted, r)
  {
    HeldSorted(RivalsIn(view.granted, r, NAME));
    RivalsHold(view.granted, r);
  }

  lemma FirstWaves(view: AgentView)
    requires view.round == 1
    ensures var ws := Waves(view);
            && |ws| == 2 && ws[0].flight == "QW441" && ws[0].qty == FreeOn(view, SeatOf("QW441"))
            && ws[1].flight == "QW519" && ws[1].qty == Min(15, FreeOn(view, SeatOf("QW519")))
  {
    hide SeatOf, FreeOn;
  }

  lemma SecondWaves(view: AgentView)
    requires view.round == 2
    ensures var ws, n := Waves(view), |Waves(view)|;
            && n == (if Waits(view, "QW519") then 1 else 2) && ws[n-1].flight == "QW338" && ws[n-1].qty == FreeOn(view, SeatOf("QW338"))
            && (n == 2 ==> ws[0].flight == "QW519" && ws[0].qty == FreeOn(view, SeatOf("QW519")) + OthersHold(view.granted, SeatOf("QW519")))
  {
    hide SeatOf, FreeOn, Rivals, HeldBy, OthersHold, Waits;
    WaitsFirst(view, "QW519");
    RivalSeats(view, SeatOf("QW519"));
  }

  lemma WaveGoes(view: AgentView, w: Wave)
    requires w in Waves(view)
    ensures GoesFor(view, w.flight, w.qty)
  {
    hide SeatOf, FreeOn, FillWaves, Waits, OthersHold;
    if view.round == 1 {
      FirstWaves(view);
      hide Waves;
    } else if view.round == 2 {
      SecondWaves(view);
      hide Waves;
    } else {
      FillGoes(view, LATE_FLIGHTS, w);
    }
  }

  lemma GoesIsWave(view: AgentView, flight: Name, qty: int)
    requires GoesFor(view, flight, qty)
    ensures exists w :: w in Waves(view) && w.flight == flight && w.qty == qty
  {
    hide SeatOf, FreeOn, FillWaves, Waits, OthersHold;
    var ws := Waves(view);
    if view.round == 1 {
      FirstWaves(view);
      hide Waves;
      assert ws[0] in ws && ws[1] in ws;
    } else if view.round == 2 {
      SecondWaves(view);
      hide Waves;
      assert ws[0] in ws && ws[|ws|-1] in ws;
    } else {
      FillHas(view, LATE_FLIGHTS, flight);
    }
  }

  /** The waves of a round are what the desk goes for, no more and no less. */
  lemma WavesAre(view: AgentView)
    ensures forall w :: w in Waves(view) ==> GoesFor(view, w.flight, w.qty)
    ensures forall flight, qty :: GoesFor(view, flight, qty) ==> exists w :: w in Waves(view) && w.flight == flight && w.qty == qty
  {
    hide Waves, GoesFor;
    forall w | w in Waves(view) ensures GoesFor(view, w.flight, w.qty) { WaveGoes(view, w); }
    forall flight, qty | GoesFor(view, flight, qty) ensures exists w :: w in Waves(view) && w.flight == flight && w.qty == qty { GoesIsWave(view, flight, qty); }
  }

  // ---------------------------------------------------------------- nobody left out

  /** Somebody legal for the flight, not seated and not spoken for. */
  predicate CouldTake(view: AgentView, x: Passenger, flight: Name) {
    flight in x.legal && x.id !in Seated(view) && x.id !in Pending(view)
  }

  /** The passenger is in some seat bid, or the flight is bid for at the full quantity. */
  ghost predicate Served(ps: seq<Proposal>, x: Passenger, flight: Name, qty: int) {
    exists p :: p in ps && IsSeat(p.resource) && (x.id in p.beneficiaries || (p.resource == SeatOf(flight) && |p.beneficiaries| == qty))
  }

  lemma ServedMore(ps: seq<Proposal>, qs: seq<Proposal>, x: Passenger, flight: Name, qty: int)
    requires Served(ps, x, flight, qty)
    ensures Served(ps + qs, x, flight, qty) && Served(qs + ps, x, flight, qty)
  {
    hide SeatOf, IsSeat;
    assert forall p :: p in ps ==> p in ps + qs && p in qs + ps;
  }

  lemma WaveServes(d: Desk, view: AgentView, w: Wave, ps: seq<Proposal>, x: Passenger)
    requires x in d.pax && CouldTake(view, x, w.flight) && w.qty > 0 && forall p :: p in ps ==> IsSeat(p.resource)
    ensures Served(ps + ClaimWave(d, view, w, NamedIn(ps)), x, w.flight, w.qty)
  {
    hide Seated, Pending, Candidates, Rightful, SeatOf, IsSeat, Chosen;
    var one := ClaimWave(d, view, w, NamedIn(ps));
    var qs := ps + one;
    if x.id in NamedIn(ps) {
      var p :| p in ps && x.id in p.beneficiaries;
      assert p in qs;
    } else if one == [] {
      NoClaimMeansNobody(d, view, w, NamedIn(ps));
    } else {
      WaveIsRightful(d, view, w, NamedIn(ps));
      assert one[0] in qs;
      RightfulServes(d, view, w, NamedIn(ps), one[0], x);
    }
  }

  lemma RightfulServes(d: Desk, view: AgentView, w: Wave, taken: set<Name>, p: Proposal, x: Passenger)
    requires Rightful(d, view, w, taken, p) && x in d.pax && CouldTake(view, x, w.flight) && x.id !in taken
    ensures p.resource == SeatOf(w.flight) && IsSeat(p.resource) && (x.id in p.beneficiaries || |p.beneficiaries| == w.qty)
  {
    hide Seated, Pending, RiskLe, SeatOf, IsSeat;
    SeatOfInjective(w.flight, w.flight);
    assert OpenTo(view, x, w.flight, taken);
    if x.id !in p.beneficiaries { assert p.beneficiaries[0] in p.beneficiaries; }
  }

  lemma AllSeats(d: Desk, view: AgentView, ws: seq<Wave>)
    ensures forall p :: p in ClaimWaves(d, view, ws) ==> IsSeat(p.resource)
  {
    hide SeatOf, IsSeat, ClaimWaves;
    RF.WavesOnOwnFlights(d, view, ws);
    forall p | p in ClaimWaves(d, view, ws) ensures IsSeat(p.resource) {
      var w :| w in ws && p.resource == SeatOf(w.flight);
      SeatOfInjective(w.flight, w.flight);
    }
  }

  lemma {:induction false} WavesServe(d: Desk, view: AgentView, ws: seq<Wave>, w: Wave, x: Passenger)
    requires w in ws && x in d.pax && CouldTake(view, x, w.flight) && w.qty > 0
    ensures Served(ClaimWaves(d, view, ws), x, w.flight, w.qty)
    decreases |ws|
  {
    hide CouldTake, Served, ClaimWave;
    var n := |ws| - 1;
    var before := ClaimWaves(d, view, ws[..n]);
    AllSeats(d, view, ws[..n]);
    if w == ws[n] {
      WaveServes(d, view, w, before, x);
    } else {
      WavesServe(d, view, ws[..n], w, x);
      ServedMore(before, ClaimWave(d, view, ws[n], NamedIn(before)), x, w.flight, w.qty);
    }
  }

  /** The seat bids of a round are for what the desk goes for, within the quantity. */
  lemma BidsWithin(d: Desk, view: AgentView, p: Proposal)
    requires p in Propose(d, view)
    ensures (view.round == 1 && p == FerryProposal(d)) || exists flight, qty :: GoesFor(view, flight, qty) && p.resource == SeatOf(flight) && |p.beneficiaries| <= qty
  {
    hide SeatOf, Waves, ClaimWaves, FerryProposal, Rightful, GoesFor, NamedIn;
    var ws := Waves(view);
    WavesAre(view);
    WavesAreBids(d, view, ws);
    var ps := ClaimWaves(d, view, ws);
    if p in ps {
      var k :| 0 <= k < |ps| && ps[k] == p;
      var w :| w in ws && Rightful(d, view, w, NamedIn(ps[..k]), ps[k]);
      RightfulQty(d, view, w, NamedIn(ps[..k]), p);
      assert GoesFor(view, w.flight, w.qty);
    }
  }

  lemma RightfulQty(d: Desk, view: AgentView, w: Wave, taken: set<Name>, p: Proposal)
    requires Rightful(d, view, w, taken, p)
    ensures p.resource == SeatOf(w.flight) && |p.beneficiaries| <= w.qty
  {
    hide OpenTo, SeatOf;
  }

  /**
   * In every round, on every flight the desk goes for: whoever is legal for it, not seated and not spoken for is named in
   * some bid of the round, or the flight is bid for at the full quantity.
   */
  lemma NobodyLeftOut(d: Desk, view: AgentView, flight: Name, qty: int, x: Passenger)
    requires GoesFor(view, flight, qty) && qty > 0 && x in d.pax && CouldTake(view, x, flight)
    ensures Served(Propose(d, view), x, flight, qty)
  {
    hide Waves, ClaimWaves, FerryProposal, GoesFor, CouldTake, Served;
    WavesAre(view);
    var w :| w in Waves(view) && w.flight == flight && w.qty == qty;
    WavesServe(d, view, Waves(view), w, x);
    ServedMore(ClaimWaves(d, view, Waves(view)), if view.round == 1 then [FerryProposal(d)] else [], x, flight, qty);
  }
}
