/** When a round cannot be cut short by an exception: agents that speak for themselves and yield only what they hold. */
module Polite {
  import opened Order
  import opened Schemas
  import opened LedgerFacts
  import opened Rounds
  import opened RoundFacts
  import opened RebookingFacts
  import opened Scenario
  import opened Impasse
  import R = Rebooking
  import A = Advocate
  import Roles
  import L = Ledger
  import B = Bank
  import D = Detector

  // ---------------------------------------------------------------- when an insert raises

  /** Somebody named already holds the resource. */
  predicate HoldsAlready(s: L.State, p: Proposal) {
    exists b :: b in p.beneficiaries && (p.resource, b) in s.allocs
  }

  lemma HeldMeansGroup(s: L.State, r: Name, b: Name)
    requires Sound(s) && (r, b) in s.allocs && r in s.resources && s.resources[r].group.Some?
    ensures L.HeldInGroup(s.allocs, s.resources[r].group.value, b)
  {
    hide Within, Exclusive, Filed;
  }

  /** The storage refuses an insert exactly when an ungrouped resource has room and one of the named holds it already. */
  lemma RaisesIff(s: L.State, id: nat, p: Proposal)
    requires Sound(s) && p.resource in s.resources
    ensures L.TryAllocate(s, id, p.resource, s.resources[p.resource].group, p.beneficiaries).Violation?
            <==> L.Free(s, p.resource) >= |p.beneficiaries| && s.resources[p.resource].group.None? && HoldsAlready(s, p)
  {
    hide Sound, L.Free, L.HeldInGroup, L.Granting;
    if s.resources[p.resource].group.Some? && HoldsAlready(s, p) {
      var b :| b in p.beneficiaries && (p.resource, b) in s.allocs;
      HeldMeansGroup(s, p.resource, b);
    }
  }

  /** Ungrouped resources come in single units, as crews and gates do. */
  ghost predicate SingleUnits(s: L.State) {
    forall r :: r in s.resources && s.resources[r].group.None? ==> s.resources[r].capacity <= 1
  }

  lemma NeverRaises(s: L.State, id: nat, p: Proposal)
    requires Sound(s) && SingleUnits(s) && p.resource in s.resources
    ensures !L.TryAllocate(s, id, p.resource, s.resources[p.resource].group, p.beneficiaries).Violation?
  {
    hide Sound, L.HeldInGroup, L.Granting, L.TryAllocate, L.On;
    RaisesIff(s, id, p);
    OnHas(s.allocs.Keys, p.resource);
    if HoldsAlready(s, p) && s.resources[p.resource].group.None? {
      var b :| b in p.beneficiaries && (p.resource, b) in s.allocs;
      assert b in L.On(s.allocs.Keys, p.resource);
      assert L.Used(s.allocs, p.resource) >= 1;
    }
  }

  lemma RevealNeverRaises(s: L.State, c: Crypto, b: Bid, round: nat)
    requires Sound(s) && SingleUnits(s)
    ensures L.Reveal(s, c, b.commitment, b.proposal, b.nonce, round).out != L.IntegrityViolation
  {
    hide Sound, SingleUnits, L.Free, L.HeldInGroup, L.Granting, VerifyCommitment;
    if b.proposal.resource in s.resources {
      NeverRaises(s, s.claimSeq + 1, b.proposal);
      if L.Revealable(s, b.commitment, b.proposal) {
        SameAttempt(s, L.AcceptReveal(s, b.commitment, b.nonce), s.claimSeq + 1, b.proposal.resource, s.resources[b.proposal.resource].group, b.proposal.beneficiaries);
      }
    }
    hide L.TryAllocate;
  }

  lemma {:induction false} RevealsFinish(cfg: Config, terms: Terms, w: World, bids: seq<Bid>, round: nat)
    requires Healthy(cfg.crypto, terms, w) && AllReady(cfg.crypto, w.ledger, bids) && SingleUnits(w.ledger)
    ensures !RevealPhase(cfg, w, bids, round).aborted
    decreases |bids|
  {
    hide Healthy, Onward, OpenOne, Ready, L.Reveal, SingleUnits;
    if bids != [] {
      HealthyParts(cfg.crypto, terms, w);
      RevealNeverRaises(w.ledger, cfg.crypto, bids[0], round);
      assert bids[0] in bids;
      OpenFacts(cfg, terms, w, bids[0], round);
      var x := OpenOne(cfg, w, bids[0], round);
      OpenKeepsUnits(cfg, w, bids[0], round);
      forall b | b in bids[1..] ensures Ready(cfg.crypto, x.ledger, b) { OpenKeepsOthers(cfg, w, bids[0], b, round); }
      RevealsFinish(cfg, terms, x, bids[1..], round);
    }
  }

  lemma OpenKeepsUnits(cfg: Config, w: World, b: Bid, round: nat)
    requires Sound(w.ledger) && SingleUnits(w.ledger)
    ensures SingleUnits(OpenOne(cfg, w, b, round).ledger)
  {
    hide Sound, L.Reveal;
    RevealAdds(w.ledger, cfg.crypto, b, round);
  }

  // ---------------------------------------------------------------- polite agents

  /** A yield gives up all of one's own claim, or some of its holders, none twice. */
  predicate FairYield(v: AgentView, p: Position) {
    forall c :: c in v.myGranted && c.id == p.target && p.release.Some? ==> NoDup(p.release.value) && forall b :: b in p.release.value ==> b in c.holders
  }

  /** Only one's own name, and no claim yielded twice. */
  ghost predicate FairPositions(name: Name, v: AgentView, ps: seq<Position>) {
    && (forall p :: p in ps ==> p.agent == name && (p.stance == Yield ==> FairYield(v, p)))
    && (forall i, j :: 0 <= i < j < |ps| && ps[i].stance == Yield && ps[j].stance == Yield ==> ps[i].target != ps[j].target)
  }

  /** No two of the claims have one id. */
  ghost predicate DistinctClaims(vs: seq<ClaimView>) {
    forall i, j :: 0 <= i < j < |vs| ==> vs[i].id != vs[j].id
  }

  /** On every view a run can show, which never lists a claim twice. */
  ghost predicate PoliteAgent(a: Agent) {
    && (forall v, p :: p in a.propose(v) ==> p.agent == a.name)
    && (forall v: AgentView :: DistinctClaims(v.myGranted) ==> FairPositions(a.name, v, a.respond(v)))
  }

  lemma {:induction false} MineDistinct(vs: seq<ClaimView>, name: Name)
    requires DistinctClaims(vs)
    ensures DistinctClaims(Mine(vs, name))
    decreases |vs|
  {
    if vs != [] {
      MineDistinct(vs[1..], name);
      var rest := Mine(vs[1..], name);
      assert forall k :: 0 <= k < |rest| ==> rest[k] in rest;
    }
  }

  /** The views of a run are such views. */
  lemma ViewDistinct(w: World, name: Name, round: nat)
    ensures DistinctClaims(ViewFor(w, name, round).myGranted)
  {
    var ids := L.IdsWith(w.ledger, Granted);
    hide L.IdsWith, L.HolderList, Mine;
    MineDistinct(ClaimsView(w.ledger, ids), name);
  }

  ghost predicate PoliteOrder(order: seq<Agent>, b: B.State) {
    forall a :: a in order ==> PoliteAgent(a) && a.name in b.balances
  }

  lemma RebookingIsPolite(d: R.Desk)
    ensures PoliteAgent(R.RebookingAgent(d))
  {
    var a := R.RebookingAgent(d);
    forall v, p | p in a.propose(v) ensures p.agent == a.name {
      if p in R.ClaimWaves(d, v, R.Waves(v)) { WavesAreOwn(d, v, R.Waves(v), p); }
    }
    forall v ensures FairPositions(a.name, v, a.respond(v)) {
      hide FairPositions, R.Respond;
      NoYieldIsFair(a.name, v, R.Respond(d, v));
    }
    hide FairPositions, R.Respond, R.ClaimWaves, R.Waves;
  }

  lemma {:induction false} WavesAreOwn(d: R.Desk, v: AgentView, ws: seq<R.Wave>, p: Proposal)
    requires p in R.ClaimWaves(d, v, ws)
    ensures p.agent == R.NAME
    decreases |ws|
  {
    hide R.Chosen;
    var before := R.ClaimWaves(d, v, ws[..|ws|-1]);
    if p in before { WavesAreOwn(d, v, ws[..|ws|-1], p); }
  }

  lemma AdvocateIsPolite(t: A.Table)
    ensures PoliteAgent(A.AdvocateAgent(t))
  {
    var a := A.AdvocateAgent(t);
    forall v ensures FairPositions(a.name, v, a.respond(v)) {
      hide FairPositions, A.Respond;
      NoYieldIsFair(a.name, v, A.Respond(t, v));
    }
    hide FairPositions, A.Respond, A.Propose;
  }

  /** Positions that yield nothing are fair. */
  lemma NoYieldIsFair(name: Name, v: AgentView, ps: seq<Position>)
    requires forall p :: p in ps ==> p.agent == name && p.stance != Yield
    ensures FairPositions(name, v, ps)
  {
    assert forall i :: 0 <= i < |ps| ==> ps[i] in ps;
  }

  lemma CrewIsPolite(duty: map<Name, int>, required: int)
    ensures PoliteAgent(Roles.CrewAgent(duty, required))
  {
    var a := Roles.CrewAgent(duty, required);
    forall v ensures FairPositions(a.name, v, a.respond(v)) {
      hide Roles.Challengeable, Roles.ShortOfDuty, Roles.BackAdvocate, FairPositions;
      NoYieldIsFair(a.name, v, Roles.CrewRespond(duty, required, v));
    }
  }

  lemma GateIsPolite(gates: seq<Name>, flights: seq<Flight>)
    ensures PoliteAgent(Roles.GateAgent(gates, flights))
  {
    var a := Roles.GateAgent(gates, flights);
    forall v ensures FairPositions(a.name, v, a.respond(v)) {
      hide Roles.Challengeable, FairPositions;
      NoYieldIsFair(a.name, v, Roles.GateRespond(v));
    }
    hide SortBy, Roles.GateBids, FairPositions;
  }

  /** The hotel desk yields only rooms it holds, and each claim once. */
  lemma HotelIsPolite(pax: R.Passengers)
    ensures PoliteAgent(Roles.HotelAgent(pax))
  {
    var a := Roles.HotelAgent(pax);
    forall v: AgentView | DistinctClaims(v.myGranted) ensures FairPositions(a.name, v, a.respond(v)) {
      VacateIsFair(v, v.myGranted);
      hide FairPositions, Roles.Vacate;
    }
    hide Roles.HotelPropose, FairPositions;
  }

  lemma ReturnIsFair(v: AgentView, c: ClaimView)
    requires DistinctClaims(v.myGranted) && c in v.myGranted
    ensures FairYield(v, Roles.ReturnOf(v, c))
  {
    hide R.Seated;
  }

  lemma {:induction false} VacateIsFair(v: AgentView, vs: seq<ClaimView>)
    requires DistinctClaims(v.myGranted) && vs <= v.myGranted
    ensures FairPositions(Roles.HOTEL_DESK, v, Roles.Vacate(v, vs))
    ensures forall p :: p in Roles.Vacate(v, vs) ==> exists i :: 0 <= i < |vs| && p.target == vs[i].id
    decreases |vs|
  {
    hide Roles.SeatedHolders, FairYield, Roles.OnRooms;
    if vs != [] {
      var n := |vs| - 1;
      VacateIsFair(v, vs[..n]);
      assert vs[n] == v.myGranted[n] && vs[n] in v.myGranted;
      ReturnIsFair(v, vs[n]);
    }
  }

  // ---------------------------------------------------------------- commit and reveal finish

  lemma {:induction false} SealAllFinishes(cfg: Config, w: World, name: Name, ps: seq<Proposal>, round: nat)
    requires forall p :: p in ps ==> p.agent == name
    ensures !SealAll(cfg, w, name, ps, round).aborted
    decreases |ps|
  {
    hide Seal;
    if ps != [] {
      assert ps[0] in ps;
      SealAllFinishes(cfg, Seal(cfg, w, ps[0], round), name, ps[1..], round);
    }
  }

  lemma {:induction false} CommitFinishes(cfg: Config, w: World, order: seq<Agent>, round: nat)
    requires forall a :: a in order ==> PoliteAgent(a)
    ensures !CommitPhase(cfg, w, order, round).aborted
    decreases |order|
  {
    hide SealAll, ViewFor;
    if order != [] {
      assert PoliteAgent(order[0]);
      var ps := order[0].propose(ViewFor(w, order[0].name, round));
      SealAllFinishes(cfg, w, order[0].name, ps, round);
      CommitFinishes(cfg, SealAll(cfg, w, order[0].name, ps, round).world, order[1..], round);
    }
  }

  lemma BidsFinish(cfg: Config, terms: Terms, w: World, order: seq<Agent>, round: nat)
    requires Healthy(cfg.crypto, terms, w) && SingleUnits(w.ledger) && forall a :: a in order ==> PoliteAgent(a)
    ensures !CommitReveal(cfg, w, order, round).aborted
  {
    hide Healthy, Sound, SingleUnits, PoliteAgent, CommitPhase, RevealPhase, Sealing, AllReady, Onward;
    CommitFinishes(cfg, w, order, round);
    CommitPhaseFacts(cfg, terms, w, order, round);
    var sealed := CommitPhase(cfg, w, order, round);
    SealingParts(cfg, terms, w, sealed);
    SealedTables(cfg, terms, w, sealed);
    SameUnits(w.ledger, sealed.world.ledger);
    RevealsFinish(cfg, terms, sealed.world, sealed.value, round);
  }

  lemma SameUnits(s: L.State, t: L.State)
    requires t.resources == s.resources && SingleUnits(s)
    ensures SingleUnits(t)
  {}

  /** Commit and reveal leave the resources and the bank alone. */
  lemma BidsKeepTables(cfg: Config, terms: Terms, w: World, order: seq<Agent>, round: nat)
    requires Healthy(cfg.crypto, terms, w) && !CommitReveal(cfg, w, order, round).aborted
    ensures var x := CommitReveal(cfg, w, order, round).world; x.ledger.resources == w.ledger.resources && x.bank == w.bank
  {
    hide Healthy, Sound, CommitPhase, RevealPhase, Sealing, AllReady, Onward, OpenAll;
    CommitPhaseFacts(cfg, terms, w, order, round);
    var sealed := CommitPhase(cfg, w, order, round);
    SealingParts(cfg, terms, w, sealed);
    SealedTables(cfg, terms, w, sealed);
    RevealOpens(cfg, sealed.world, sealed.value, round);
    OpensKeepResources(sealed.world.ledger, cfg.crypto, sealed.value, round);
  }

  lemma {:induction false} OpensKeepResources(s: L.State, c: Crypto, bids: seq<Bid>, round: nat)
    requires Sound(s)
    ensures Sound(OpenAll(s, c, bids, round)) && OpenAll(s, c, bids, round).resources == s.resources
    decreases |bids|
  {
    hide Sound, L.Reveal;
    if bids != [] {
      OpensKeepResources(s, c, bids[..|bids|-1], round);
      RevealAdds(OpenAll(s, c, bids[..|bids|-1], round), c, bids[|bids|-1], round);
    }
  }

  // ---------------------------------------------------------------- positions finish

  /** What a position needs of the ledger not to raise when its turn comes. */
  predicate Safe(s: L.State, name: Name, p: Position) {
    p.agent == name && (YieldsGranted(s, name, p) ==> Takes(s, p))
  }

  /** A yield of one's own granted claim. */
  predicate YieldsGranted(s: L.State, name: Name, p: Position) {
    p.stance == Yield && p.target in s.claims && s.claims[p.target].proposal.agent == name && s.claims[p.target].status == Granted
  }

  /** Whatever the release names is held under the claim, and named once. */
  predicate Takes(s: L.State, p: Position) {
    p.release.Some? ==> NoDup(p.release.value) && forall b :: b in p.release.value ==> b in L.Holders(s.allocs, p.target)
  }

  lemma ReleaseFinishes(s: L.State, p: Position, round: nat)
    requires Sound(s) && Safe(s, p.agent, p) && p.stance == Yield && p.target in s.claims
    requires s.claims[p.target].proposal.agent == p.agent && s.claims[p.target].status == Granted
    ensures L.Release(s, p.agent, p.target, p.release, round).out == L.Ok
  {
    hide Sound, L.Holders, L.HolderList;
    var id := p.target;
    var r := s.claims[id].proposal.resource;
    OwnHolders(s, id);
    if p.release.Some? {
      forall b | b in p.release.value ensures (r, b) in s.allocs && s.allocs[(r, b)].claim == id { HolderUnit(s, id, b); }
    }
  }

  lemma HolderUnit(s: L.State, id: nat, b: Name)
    requires Sound(s) && id in s.claims && b in L.Holders(s.allocs, id)
    ensures (s.claims[id].proposal.resource, b) in s.allocs && s.allocs[(s.claims[id].proposal.resource, b)].claim == id
  {
    hide Within, Exclusive, Filed;
    var k :| k in s.allocs.Keys && s.allocs[k].claim == id && k.1 == b;
    assert k == (k.0, b);
  }

  /** Processing a position changes no other claim and takes nothing from one. */
  lemma ProcessKeepsOthers(w: World, pos: Position, round: nat, id: nat)
    requires id in w.ledger.claims && (pos.stance != Yield || pos.target != id)
    ensures var t := ProcessPosition(w, pos, round).world.ledger;
            id in t.claims && t.claims[id] == w.ledger.claims[id] && L.Holders(t.allocs, id) == L.Holders(w.ledger.allocs, id)
  {
    hide L.Targets, B.OpenContest, Stamp, L.DeallocEvents;
    var s := w.ledger;
    if pos.target in s.claims && pos.stance == Yield && s.claims[pos.target].status == Granted {
      var r := s.claims[pos.target].proposal.resource;
      var targets := L.Targets(s, pos.target, pos.release);
      OthersHold(s, pos.target, r, targets, id);
      hide L.Deallocate, L.Holders;
    }
  }

  lemma OthersHold(s: L.State, from: nat, r: Name, targets: seq<Name>, id: nat)
    requires from != id
    ensures var d := L.Deallocate(s.allocs, from, r, targets); d.Some? ==> L.Holders(d.value, id) == L.Holders(s.allocs, id)
  {
    var d := L.Deallocate(s.allocs, from, r, targets);
    if d.Some? {
      forall b | b in L.Holders(s.allocs, id) ensures b in L.Holders(d.value, id) {
        var k :| k in s.allocs.Keys && s.allocs[k].claim == id && k.1 == b;
        assert k in d.value.Keys;
      }
    }
  }

  lemma ProcessFinishes(w: World, pos: Position, round: nat)
    requires Sound(w.ledger) && Safe(w.ledger, pos.agent, pos) && pos.agent in w.bank.balances
    ensures !ProcessPosition(w, pos, round).aborted
    ensures ProcessPosition(w, pos, round).world.bank.balances.Keys == w.bank.balances.Keys
    ensures ProcessPosition(w, pos, round).world.ledger.resources == w.ledger.resources
  {
    hide Sound, Safe, L.TakeBack, Stamp;
    if pos.target in w.ledger.claims && pos.stance == Yield && w.ledger.claims[pos.target].proposal.agent == pos.agent
       && w.ledger.claims[pos.target].status == Granted {
      ReleaseFinishes(w.ledger, pos, round);
    }
    TakeBackKeeps(w.ledger, pos.target, L.Targets(w.ledger, pos.target, pos.release), Released, round);
  }

  lemma TakeBackKeeps(s: L.State, id: nat, targets: seq<Name>, emptied: Status, round: nat)
    ensures id in s.claims ==> L.TakeBack(s, id, targets, emptied, round).state.resources == s.resources
  {
    hide L.Deallocate, L.Holders;
  }

  ghost predicate SafeAll(s: L.State, name: Name, ps: seq<Position>) {
    && (forall p :: p in ps ==> Safe(s, name, p))
    && (forall i, j :: 0 <= i < j < |ps| && ps[i].stance == Yield && ps[j].stance == Yield ==> ps[i].target != ps[j].target)
  }

  lemma SafeNext(w: World, name: Name, ps: seq<Position>, round: nat)
    requires ps != [] && SafeAll(w.ledger, name, ps) && Sound(w.ledger)
    ensures SafeAll(ProcessPosition(File(w, ps[0], round), ps[0], round).world.ledger, name, ps[1..])
  {
    hide ProcessPosition, Sound, L.Holders;
    var x, t := File(w, ps[0], round), ProcessPosition(File(w, ps[0], round), ps[0], round).world.ledger;
    forall p | p in ps[1..] ensures Safe(t, name, p) {
      var j :| 1 <= j < |ps| && ps[j] == p;
      assert Safe(w.ledger, name, p);
      if p.stance == Yield {
        if p.target in w.ledger.claims { ProcessKeepsOthers(x, ps[0], round, p.target); } else { ProcessFilesNothing(x, ps[0], round); }
      }
    }
  }

  lemma ProcessFilesNothing(w: World, pos: Position, round: nat)
    ensures ProcessPosition(w, pos, round).world.ledger.claims.Keys == w.ledger.claims.Keys
  {
    hide L.Deallocate, L.Holders, L.Targets, B.OpenContest, Stamp;
  }

  lemma {:induction false} FilesFinish(c: Crypto, terms: Terms, w: World, name: Name, ps: seq<Position>, round: nat)
    requires Healthy(c, terms, w) && SafeAll(w.ledger, name, ps) && name in w.bank.balances
    ensures var out := FileAll(w, name, ps, round);
            !out.aborted && out.world.bank.balances.Keys == w.bank.balances.Keys && out.world.ledger.resources == w.ledger.resources
    decreases |ps|
  {
    hide Healthy, Sound, ProcessPosition, Safe, Fine;
    if ps != [] {
      assert ps[0] in ps && Safe(w.ledger, name, ps[0]);
      assert ps[0].agent == name by { SafeOwn(w.ledger, name, ps[0]); }
      var x := File(w, ps[0], round);
      FineFile(c, terms, w, ps[0], round);
      FineHealthy(c, terms, w, x);
      HealthyParts(c, terms, w);
      ProcessFinishes(x, ps[0], round);
      FineProcess(c, terms, x, ps[0], round);
      SafeNext(w, name, ps, round);
      var y := ProcessPosition(x, ps[0], round).world;
      FineHealthy(c, terms, x, y);
      FilesFinish(c, terms, y, name, ps[1..], round);
    }
  }

  lemma SafeOwn(s: L.State, name: Name, p: Position)
    requires Safe(s, name, p)
    ensures p.agent == name
  {}

  lemma MineShows(w: World, name: Name, round: nat, id: nat)
    requires id in w.ledger.claims && w.ledger.claims[id].proposal.agent == name && w.ledger.claims[id].status == Granted
    ensures exists c :: c in ViewFor(w, name, round).myGranted && c.id == id && c.holders == L.HolderList(w.ledger.allocs, id)
  {
    var ids, view := L.IdsWith(w.ledger, Granted), ViewFor(w, name, round);
    assert id in ids;
    var k :| 0 <= k < |ids| && ids[k] == id;
    assert view.granted[k] in view.granted;
    hide L.IdsWith, L.HolderList, L.Holders;
  }

  lemma FairIsSafe(w: World, name: Name, round: nat, ps: seq<Position>)
    requires FairPositions(name, ViewFor(w, name, round), ps)
    ensures SafeAll(w.ledger, name, ps)
  {
    hide ViewFor, L.Holders;
    forall p | p in ps ensures Safe(w.ledger, name, p) {
      if YieldsGranted(w.ledger, name, p) {
        MineShows(w, name, round, p.target);
        assert FairYield(ViewFor(w, name, round), p);
      }
    }
  }

  lemma {:induction false} PositionsFinish(c: Crypto, terms: Terms, w: World, order: seq<Agent>, round: nat)
    requires Healthy(c, terms, w) && PoliteOrder(order, w.bank)
    ensures var out := PositionPhase(w, order, round);
            !out.aborted && out.world.bank.balances.Keys == w.bank.balances.Keys && out.world.ledger.resources == w.ledger.resources
    decreases |order|
  {
    hide Healthy, FileAll, ViewFor, FairPositions, Fine, SafeAll;
    if order != [] {
      var a := order[0];
      assert PoliteAgent(a) && a.name in w.bank.balances;
      var ps := a.respond(ViewFor(w, a.name, round));
      ViewDistinct(w, a.name, round);
      assert FairPositions(a.name, ViewFor(w, a.name, round), ps);
      FairIsSafe(w, a.name, round, ps);
      FilesFinish(c, terms, w, a.name, ps, round);
      FineFileAll(c, terms, w, a.name, ps, round);
      var x := FileAll(w, a.name, ps, round).world;
      FineHealthy(c, terms, w, x);
      PositionsFinish(c, terms, x, order[1..], round);
    }
  }

  // ---------------------------------------------------------------- no exception, so a deadlock

  /** Everyone is polite and has an account, and ungrouped resources are single units. */
  ghost predicate GoodManners(cfg: Config, w: World) {
    PoliteOrder(cfg.agents, w.bank) && SingleUnits(w.ledger)
  }

  lemma RotatedPolite(cfg: Config, b: B.State, round: nat)
    requires cfg.agents != [] && round >= 1 && PoliteOrder(cfg.agents, b)
    ensures PoliteOrder(Rotated(cfg.agents, round), b)
  {
    hide PoliteAgent;
    assert forall a :: a in Rotated(cfg.agents, round) ==> a in cfg.agents;
  }

  lemma PoliteSameBank(order: seq<Agent>, b: B.State, c: B.State)
    requires PoliteOrder(order, b) && b.balances.Keys == c.balances.Keys
    ensures PoliteOrder(order, c)
  {
    hide PoliteAgent;
  }

  /** Among polite agents a round gets as far as detection. */
  lemma PoliteRoundFinishes(cfg: Config, terms: Terms, w: World, round: nat)
    requires Healthy(cfg.crypto, terms, w) && cfg.agents != [] && round >= 1 && GoodManners(cfg, w)
    ensures !UntilDetect(cfg, w, round).aborted && GoodManners(cfg, UntilDetect(cfg, w, round).world)
  {
    hide Healthy, PoliteOrder, SingleUnits, CommitReveal, PositionPhase, Fine, D.Scan;
    var c, order := cfg.crypto, Rotated(cfg.agents, round);
    var a := Say(w, round, [RoundStart(Names(order))]);
    FineSay(c, terms, w, round, [RoundStart(Names(order))]);
    FineHealthy(c, terms, w, a);
    RotatedPolite(cfg, w.bank, round);
    SameUnits(w.ledger, a.ledger);
    EachPolite(order, w.bank);
    BidsFinish(cfg, terms, a, order, round);
    BidsKeepTables(cfg, terms, a, order, round);
    var cr := CommitReveal(cfg, a, order, round);
    FineCommitReveal(cfg, terms, a, order, round);
    FineHealthy(c, terms, a, cr.world);
    PositionsFinish(c, terms, cr.world, order, round);
    var po := PositionPhase(cr.world, order, round);
    PoliteSameBank(cfg.agents, w.bank, po.world.bank);
    SameUnits(w.ledger, po.world.ledger);
    SameUnits(w.ledger, Detect(po.world, round).world.ledger);
    PoliteSameBank(cfg.agents, w.bank, Detect(po.world, round).world.bank);
  }

  lemma EachPolite(order: seq<Agent>, b: B.State)
    requires PoliteOrder(order, b)
    ensures forall a :: a in order ==> PoliteAgent(a)
  {
    hide PoliteAgent;
  }

  lemma QuietKeepsBank(cfg: Config, w: World, round: nat)
    requires round >= 1 && !UntilDetect(cfg, w, round).aborted && UntilDetect(cfg, w, round).value.2 == []
    ensures Round(cfg, w, round).world.bank == UntilDetect(cfg, w, round).world.bank
  {
    hide UntilDetect, L.IdsWith, B.OpenIds, Stamp;
  }

  /** Among polite agents no exception can come first: a deadlock is recorded in the first two rounds. */
  lemma PoliteDeadlockByRoundTwo(cfg: Config, terms: Terms, w: World, d: R.Desk, t: A.Table, j: nat)
    requires Cast(cfg, d, t, j) && Stage(w, d) && Healthy(cfg.crypto, terms, w) && (terms.cited ==> ResolvesSafely(cfg)) && GoodManners(cfg, w)
    ensures DeadlockedByTwo(cfg, w)
  {
    hide Healthy, Stage, UntilDetect, Round, Stuck, ResolvesSafely, PoliteOrder, SingleUnits;
    var one, mid := UntilDetect(cfg, w, 1), Round(cfg, w, 1);
    PoliteRoundFinishes(cfg, terms, w, 1);
    DeadlockByRoundTwo(cfg, terms, w, d, t, j);
    if one.world.deadlocks == [] {
      ReportedAreRecorded(cfg, w, 1);
      var id := RoundOne(cfg, terms, w, d, t, j);
      QuietRound(cfg, w, 1);
      QuietKeepsBank(cfg, w, 1);
      FineRound(cfg, terms, w, 1);
      FineHealthy(cfg.crypto, terms, w, mid.world);
      PoliteSameBank(cfg.agents, one.world.bank, mid.world.bank);
      SameUnits(one.world.ledger, mid.world.ledger);
      PoliteRoundFinishes(cfg, terms, mid.world, 2);
    }
  }
}
