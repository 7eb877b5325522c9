/** The society the orchestrator builds for a storm: five role agents, the storm's resources, and an optional mediator. */
module TarmacRun {
  import opened Order
  import opened Schemas
  import opened Rounds
  import opened RunTheorems
  import opened Scenario
  import opened Impasse
  import opened Polite
  import opened StormSociety
  import Roles
  import R = Rebooking
  import A = Advocate
  import L = Ledger
  import D = Detector
  import PlannerRun
  import EndToEnd

  const CONTEST_COST: nat := 10
  const PREMIUM: nat := 5
  const CONTESTED_ROUNDS: nat := 2

  const AGENT_ORDER: seq<Name> := [R.NAME, Roles.CREW_LEGALITY, Roles.GATE_GROUND, Roles.HOTEL_DESK, A.NAME]

  // ---------------------------------------------------------------- the resources

  function SeatRegistrations(flights: seq<Flight>): (rs: seq<Registration>)
    ensures |rs| == |flights| && forall i :: 0 <= i < |rs| ==> rs[i] == Registration(SeatOf(flights[i].id), flights[i].seats, Some(SEAT))
  {
    seq(|flights|, i requires 0 <= i < |flights| => Registration(SeatOf(flights[i].id), flights[i].seats, Some(SEAT)))
  }

  function GateRegistrations(gates: seq<Name>): (rs: seq<Registration>)
    ensures |rs| == |gates| && forall i :: 0 <= i < |rs| ==> rs[i] == Registration(GateOf(gates[i]), 1, None)
  {
    seq(|gates|, i requires 0 <= i < |gates| => Registration(GateOf(gates[i]), 1, None))
  }

  /** Seats, the ferry crew, gates, hotel rooms. */
  function Registrations(storm: Storm): seq<Registration> {
    SeatRegistrations(storm.flights) + ([Registration(FERRY, 1, None)] + GateRegistrations(storm.gates) + [Registration(HOTEL, storm.hotel, Some(HOTEL_GROUP))])
  }

  /** The single planner opens with the same resources. */
  lemma PlannerRegistersTheSame(storm: Storm)
    requires storm.crews != []
    ensures RegisterCalls(Registrations(storm)) <= PlannerRun.Preamble(storm)
  {
    hide PlannerRun.GateClaims, SortBy, PlannerRun.UnitClaim, SeatOf, GateOf, RegisterCalls;
    var seats, gates := SeatRegistrations(storm.flights), GateRegistrations(storm.gates);
    var ferry, hotel := Registration(FERRY, 1, None), Registration(HOTEL, storm.hotel, Some(HOTEL_GROUP));
    assert RegisterCalls(seats) == PlannerRun.SeatResources(storm.flights) && RegisterCalls(gates) == PlannerRun.GateResources(storm.gates);
    CallsSplit(seats, [ferry] + gates + [hotel]);
    CallsSplit([ferry] + gates, [hotel]);
    CallsSplit([ferry], gates);
  }

  lemma CallsSplit(a: seq<Registration>, b: seq<Registration>)
    ensures RegisterCalls(a + b) == RegisterCalls(a) + RegisterCalls(b)
  {}

  // ---------------------------------------------------------------- the private views

  /** Private tables; `sla` lists the flights that meet a special-needs passenger's service level. */
  datatype Private = Private(risk: map<Name, int>, duty: map<Name, int>, ferryDuty: int, sla: Passenger -> seq<Name>)

  predicate Special(flag: string) {
    flag == "MED" || flag == "UM" || flag == "WCHR"
  }

  function FirstSpecial(flags: seq<string>): Option<string> {
    if flags == [] then None else if Special(flags[0]) then Some(flags[0]) else FirstSpecial(flags[1..])
  }

  predicate InWheelchair(p: Passenger) {
    FirstSpecial(p.flags) == Some("WCHR")
  }

  /** The advocate's table: everyone with a special need, under the first such flag. */
  function NeedsOf(pax: seq<Passenger>, sla: Passenger -> seq<Name>): seq<A.Need>
    decreases |pax|
  {
    if pax == [] then []
    else
      var rest := NeedsOf(pax[1..], sla);
      match FirstSpecial(pax[0].flags)
      case None => rest
      case Some(kind) => [A.Need(pax[0].id, kind, sla(pax[0]))] + rest
  }

  lemma {:induction false} NeedListed(pax: seq<Passenger>, sla: Passenger -> seq<Name>, p: Passenger)
    requires p in pax && FirstSpecial(p.flags).Some?
    ensures A.Need(p.id, FirstSpecial(p.flags).value, sla(p)) in NeedsOf(pax, sla)
    decreases |pax|
  {
    hide FirstSpecial;
    if p != pax[0] { NeedListed(pax[1..], sla, p); }
  }

  lemma {:induction false} NeedsDistinct(pax: seq<Passenger>, sla: Passenger -> seq<Name>)
    requires Distinct(pax)
    ensures A.DistinctNeeds(NeedsOf(pax, sla)) && forall n :: n in NeedsOf(pax, sla) ==> exists p :: p in pax && p.id == n.pid
    decreases |pax|
  {
    hide FirstSpecial;
    if pax != [] {
      NeedsDistinct(pax[1..], sla);
      var rest := NeedsOf(pax[1..], sla);
      assert forall p :: p in pax[1..] ==> p in pax && p.id != pax[0].id;
      assert forall k :: 0 <= k < |rest| ==> rest[k] in rest;
    }
  }

  /** The storm: distinct names, a QW441 with seats and enough takers, two wheelchair passengers, and a reserve crew. */
  ghost predicate Stormy(storm: Storm) {
    && storm.crews != [] && Distinct(storm.pax) && NoDup(storm.gates)
    && (forall i, j :: 0 <= i < j < |storm.flights| ==> storm.flights[i].id != storm.flights[j].id)
    && (exists f :: f in storm.flights && f.id == QW441 && 1 <= f.seats <= |Takers(storm.pax)|)
    && exists p, q :: p in storm.pax && q in storm.pax && p.id != q.id && InWheelchair(p) && InWheelchair(q)
  }

  function Takers(pax: seq<Passenger>): set<Name> {
    set p | p in pax && QW441 in p.legal :: p.id
  }

  lemma TwoOfThem<T>(s: seq<T>, x: T, y: T)
    requires x in s && y in s && x != y
    ensures |s| >= 2
  {}

  lemma EnoughWheelchairs(storm: Storm, k: Private)
    requires Stormy(storm)
    ensures A.DistinctNeeds(NeedsOf(storm.pax, k.sla)) && |A.OfKind(NeedsOf(storm.pax, k.sla), {"WCHR"})| >= 2
  {
    hide A.DistinctNeeds, Takers, NeedsOf, A.OfKind;
    NeedsDistinct(storm.pax, k.sla);
    var needs := NeedsOf(storm.pax, k.sla);
    var p, q :| p in storm.pax && q in storm.pax && p.id != q.id && InWheelchair(p) && InWheelchair(q);
    var a, b := A.Need(p.id, "WCHR", k.sla(p)), A.Need(q.id, "WCHR", k.sla(q));
    NeedListed(storm.pax, k.sla, p);
    NeedListed(storm.pax, k.sla, q);
    TwoOfThem(A.OfKind(needs, {"WCHR"}), a, b);
  }

  // ---------------------------------------------------------------- the cast

  ghost function DeskOf(storm: Storm, k: Private): R.Desk
    requires Stormy(storm)
  {
    R.Desk(k.risk, storm.pax, storm.crews[0])
  }

  ghost function TableOf(storm: Storm, k: Private): A.Table
    requires Stormy(storm)
  {
    EnoughWheelchairs(storm, k);
    NeedsOf(storm.pax, k.sla)
  }

  ghost function Agents(storm: Storm, k: Private): seq<Agent>
    requires Stormy(storm)
  {
    [R.RebookingAgent(DeskOf(storm, k)),
     Roles.CrewAgent(k.duty, k.ferryDuty),
     Roles.GateAgent(storm.gates, storm.flights),
     Roles.HotelAgent(storm.pax),
     A.AdvocateAgent(TableOf(storm, k))]
  }

  function Budgets(budget: nat): map<Name, nat> {
    map a | a in AGENT_ORDER :: budget
  }

  function Opening(c: Crypto, header: string, storm: Storm, budget: nat): World {
    FreshWorld(c, header, Registrations(storm), Budgets(budget), CONTEST_COST, PREMIUM, CONTESTED_ROUNDS)
  }

  lemma AgentsAreCast(storm: Storm, k: Private, cfg: Config)
    requires Stormy(storm) && cfg.agents == Agents(storm, k)
    ensures Cast(cfg, DeskOf(storm, k), TableOf(storm, k), 4)
  {
    hide Stormy, DeskOf, TableOf, R.RebookingAgent, Roles.CrewAgent, Roles.GateAgent, Roles.HotelAgent, A.AdvocateAgent;
    assert A.NAME[0] == 'a' && R.NAME[0] == 'r' && Roles.CREW_LEGALITY[0] == 'c' && Roles.GATE_GROUND[0] == 'g' && Roles.HOTEL_DESK[0] == 'h';
  }

  lemma AgentsArePolite(storm: Storm, k: Private, cfg: Config, budget: nat)
    requires Stormy(storm) && cfg.agents == Agents(storm, k)
    ensures PoliteSociety(cfg, Budgets(budget))
  {
    hide PoliteAgent, Stormy;
    RebookingIsPolite(DeskOf(storm, k));
    CrewIsPolite(k.duty, k.ferryDuty);
    GateIsPolite(storm.gates, storm.flights);
    HotelIsPolite(DeskOf(storm, k).pax);
    AdvocateIsPolite(TableOf(storm, k));
  }

  // ---------------------------------------------------------------- the resources are the storm's

  lemma RegistrationAt(storm: Storm, i: nat)
    requires i < |Registrations(storm)|
    ensures var (q, n) := (Registrations(storm)[i], |storm.flights|);
            if i < n then q == Registration(SeatOf(storm.flights[i].id), storm.flights[i].seats, Some(SEAT)) && q.id[0] == 's'
            else if i == n then q == Registration(FERRY, 1, None) && q.id[0] == 'c'
            else if i < n + 1 + |storm.gates| then q == Registration(GateOf(storm.gates[i-n-1]), 1, None) && q.id[0] == 'g'
            else i == n + 1 + |storm.gates| && q == Registration(HOTEL, storm.hotel, Some(HOTEL_GROUP)) && q.id[0] == 'h'
  {}

  lemma NamesApart(storm: Storm, i: nat, j: nat)
    requires Stormy(storm) && i < j < |Registrations(storm)|
    ensures Registrations(storm)[i].id != Registrations(storm)[j].id
  {
    hide Takers, InWheelchair, Registrations;
    RegistrationAt(storm, i);
    RegistrationAt(storm, j);
    var n := |storm.flights|;
    if j < n { SeatOfInjective(storm.flights[i].id, storm.flights[j].id); }
    if n < i && j < n + 1 + |storm.gates| {
      assert GateOf(storm.gates[i-n-1])[5..] == storm.gates[i-n-1] && GateOf(storm.gates[j-n-1])[5..] == storm.gates[j-n-1];
    }
  }

  lemma StormHasResources(storm: Storm, k: Private)
    requires Stormy(storm)
    ensures StormResources(Registrations(storm), DeskOf(storm, k))
  {
    hide Registrations, Takers, InWheelchair, Legal441;
    var rs := Registrations(storm);
    forall i, j | 0 <= i < j < |rs| ensures rs[i].id != rs[j].id { NamesApart(storm, i, j); }
    forall q | q in rs
      ensures (IsSeat(q.id) ==> q.group == Some(SEAT)) && (q.id == FERRY ==> q.group == None) && (q.group.None? ==> q.capacity <= 1)
    {
      var i :| 0 <= i < |rs| && rs[i] == q;
      RegistrationAt(storm, i);
      assert IsSeat(q.id) ==> q.id[0] == SEAT_PREFIX[0];
    }
    SeatsOf441(storm, k);
  }

  lemma SeatsOf441(storm: Storm, k: Private)
    requires Stormy(storm)
    ensures exists q :: q in Registrations(storm) && q.id == Seat441() && 1 <= q.capacity <= |Legal441(DeskOf(storm, k))|
  {
    hide Registrations, InWheelchair;
    var f :| f in storm.flights && f.id == QW441 && 1 <= f.seats <= |Takers(storm.pax)|;
    var i :| 0 <= i < |storm.flights| && storm.flights[i] == f;
    assert Takers(storm.pax) == Legal441(DeskOf(storm, k));
    assert i < |Registrations(storm)| by { Counted(storm); }
    RegistrationAt(storm, i);
    assert Registrations(storm)[i] in Registrations(storm);
  }

  lemma Counted(storm: Storm)
    ensures |Registrations(storm)| == |storm.flights| + |storm.gates| + 2
  {}

  // ---------------------------------------------------------------- the guarantee

  /**
   * For every storm with at least as many takers as QW441 has seats, whatever the private tables, the mediator, if
   * there is one, the resolver and the budget: the five role agents have a deadlock on record by the end of
   * the second round's detection, and at the end of every run of two rounds or more, returned or aborted.
   */
  lemma TarmacAlwaysDeadlocks(storm: Storm, k: Private, cfg: Config, header: string, budget: nat)
    requires Stormy(storm) && cfg.agents == Agents(storm, k)
    ensures DeadlockedByTwo(cfg, Opening(cfg.crypto, header, storm, budget))
    ensures cfg.maxRounds >= 2 ==> RunSociety(cfg, Opening(cfg.crypto, header, storm, budget)).world.deadlocks != []
  {
    hide *;
    StormHasResources(storm, k);
    AgentsAreCast(storm, k, cfg);
    AgentsArePolite(storm, k, cfg, budget);
    OpeningIs(cfg.crypto, header, storm, budget);
    StormSocietyDeadlocks(cfg, header, Registrations(storm), Budgets(budget), CONTEST_COST, PREMIUM, CONTESTED_ROUNDS, DeskOf(storm, k), TableOf(storm, k), 4);
    if cfg.maxRounds >= 2 { FreshKeepsDeadlock(cfg, header, Registrations(storm), Budgets(budget), CONTEST_COST, PREMIUM, CONTESTED_ROUNDS); }
  }

  lemma OpeningIs(c: Crypto, header: string, storm: Storm, budget: nat)
    ensures Opening(c, header, storm, budget) == FreshWorld(c, header, Registrations(storm), Budgets(budget), CONTEST_COST, PREMIUM, CONTESTED_ROUNDS)
    ensures CONTESTED_ROUNDS <= 2
  {}

  /** `run_society`: built, run, and audited. */
  method RunTarmac(storm: Storm, ghost k: Private, cfg: Config, header: string, budget: nat) returns (run: Rounds.Run, raised: bool, passed: bool)
    requires Stormy(storm) && cfg.agents == Agents(storm, k)
    ensures run == RunSociety(cfg, Opening(cfg.crypto, header, storm, budget))
    ensures cfg.maxRounds >= 2 ==> run.world.deadlocks != []
  {
    hide *;
    TarmacAlwaysDeadlocks(storm, k, cfg, header, budget);
    OpeningIs(cfg.crypto, header, storm, budget);
    run, raised, passed := EndToEnd.RunAndAudit(cfg, header, Registrations(storm), Budgets(budget), CONTEST_COST, PREMIUM, CONTESTED_ROUNDS);
  }
}
