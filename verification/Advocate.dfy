/** The passenger advocate: protected passengers on the earliest compliant flights. */
module Advocate {
  import opened Order
  import opened Schemas
  import opened Rounds
  import opened Scenario
  import Rebooking
  import L = Ledger

  const NAME: Name := "advocate"
  const QW441: Name := "QW441"
  const QW519: Name := "QW519"

  /** One row of the private special-needs table. */
  datatype Need = Need(pid: Name, kind: string, sla: seq<Name>)

  function OfKind(needs: seq<Need>, kinds: set<string>): (r: seq<Need>)
    ensures forall n :: n in r <==> n in needs && n.kind in kinds
    ensures DistinctNeeds(needs) ==> DistinctNeeds(r)
    decreases |needs|
  {
    if needs == [] then []
    else
      var rest := OfKind(needs[1..], kinds);
      assert needs == [needs[0]] + needs[1..];
      assert DistinctNeeds(needs) ==> forall n :: n in needs[1..] ==> n.pid != needs[0].pid;
      if needs[0].kind in kinds then [needs[0]] + rest else rest
  }

  predicate DistinctNeeds(needs: seq<Need>) {
    forall i, j :: 0 <= i < j < |needs| ==> needs[i].pid != needs[j].pid
  }

  function Pids(needs: seq<Need>): (r: seq<Name>)
    ensures |r| == |needs| && forall i :: 0 <= i < |r| ==> r[i] == needs[i].pid
    ensures DistinctNeeds(needs) ==> NoDup(r)
  {
    seq(|needs|, i requires 0 <= i < |needs| => needs[i].pid)
  }

  /** A table with the wheelchair passengers the first round needs; without two of them the policy raises. */
  type Table = n: seq<Need> | DistinctNeeds(n) && |OfKind(n, {"WCHR"})| >= 2 witness TwoWheelchairs()

  function TwoWheelchairs(): (n: seq<Need>)
    ensures DistinctNeeds(n) && |OfKind(n, {"WCHR"})| >= 2
  {
    var a, b := Need("A", "WCHR", []), Need("B", "WCHR", []);
    assert OfKind([a, b][1..][1..], {"WCHR"}) == [];
    assert OfKind([a, b][1..], {"WCHR"}) == [b];
    assert OfKind([a, b], {"WCHR"}) == [a, b];
    assert "A"[0] == 'A' && "B"[0] == 'B';
    [a, b]
  }

  function Wheelchairs(t: Table): (r: seq<Name>)
    ensures |r| >= 2 && NoDup(r)
  {
    var pids := Pids(OfKind(t, {"WCHR"}));
    SortByElems(pids, NameLe);
    SortBy(pids, NameLe)
  }

  predicate MedFirst(a: Need, b: Need) {
    a.kind == "MED" || b.kind != "MED"
  }

  /** MED, then UM, then one wheelchair passenger. */
  function FirstWave(t: Table): (r: seq<Name>)
    ensures r != [] && NoDup(r)
  {
    var cast := OfKind(t, {"MED", "UM"});
    var pids := Pids(SortBy(cast, MedFirst));
    FirstWaveDistinct(t);
    pids + [Wheelchairs(t)[0]]
  }

  lemma FirstWaveDistinct(t: Table)
    ensures NoDup(Pids(SortBy(OfKind(t, {"MED", "UM"}), MedFirst)) + [Wheelchairs(t)[0]])
  {
    hide MedFirst, OfKind, SortBy, DistinctNeeds, NameLe;
    var cast := OfKind(t, {"MED", "UM"});
    var sorted := SortBy(cast, MedFirst);
    SortedNeeds(cast);
    var wchr := OfKind(t, {"WCHR"});
    SortByElems(Pids(wchr), NameLe);
    var first := Wheelchairs(t)[0];
    assert first in Pids(wchr);
    var i :| 0 <= i < |wchr| && Pids(wchr)[i] == first;
    assert wchr[i] in t && wchr[i].kind == "WCHR";
    assert "WCHR"[0] == 'W' && "MED"[0] == 'M' && "UM"[0] == 'U';
    forall j | 0 <= j < |sorted| ensures sorted[j].pid != first {
      assert sorted[j] in multiset(sorted);
      assert sorted[j] in t && sorted[j].kind != "WCHR";
      PidsDiffer(t, sorted[j], wchr[i]);
    }
  }

  lemma PidsDiffer(needs: seq<Need>, a: Need, b: Need)
    requires DistinctNeeds(needs) && a in needs && b in needs && a != b
    ensures a.pid != b.pid
  {}

  lemma SortedNeeds(needs: seq<Need>)
    requires DistinctNeeds(needs)
    ensures DistinctNeeds(SortBy(needs, MedFirst))
  {
    hide MedFirst, SortBy;
    var r := SortBy(needs, MedFirst);
    assert NoDup(needs);
    SortByElems(needs, MedFirst);
    hide DistinctNeeds;
    forall i, j | 0 <= i < j < |r| ensures r[i].pid != r[j].pid {
      assert r[i] in needs && r[j] in needs;
      PidsDiffer(needs, r[i], r[j]);
    }
  }

  function SeatBid(flight: Name, bens: seq<Name>, basis: string): (p: Proposal)
    requires bens != [] && NoDup(bens)
    ensures p.agent == NAME && p.resource == SeatOf(flight) && p.beneficiaries == bens
  {
    var fields := ProposalFields.Proposal(NAME, SeatOf(flight), bens, basis, true);
    assert fields.beneficiaries == bens;
    fields
  }

  function FirstRound(t: Table): (ps: seq<Proposal>)
    ensures |ps| == 2 && ps[0].resource == SeatOf(QW441) && ps[1].resource == SeatOf(QW519)
    ensures forall p :: p in ps ==> p.agent == NAME
  {
    var wchr := Wheelchairs(t);
    assert NoDup(wchr[1..]);
    [SeatBid(QW441, FirstWave(t), "DOT 259.4 protected categories on the only compliant arrival"),
     SeatBid(QW519, wchr[1..], "same-day nonstop WCHR service (WCHR-1)")]
  }

  // ---------------------------------------------------------------- later rounds

  function PendingFor(vs: seq<ClaimView>, pid: Name): Option<ClaimView> {
    if vs == [] then None
    else if pid in vs[0].claim.proposal.beneficiaries then Some(vs[0])
    else PendingFor(vs[1..], pid)
  }

  /** The first compliant flight with a seat, other than the one already fought for. */
  function Fallback(view: AgentView, sla: seq<Name>, pending: Option<ClaimView>): (f: Option<Name>)
    ensures f.Some? ==> f.value in sla && Rebooking.FreeOn(view, SeatOf(f.value)) >= 1
  {
    if sla == [] then None
    else
      assert sla == [sla[0]] + sla[1..];
      if !(pending.Some? && pending.value.claim.proposal.resource == SeatOf(sla[0])) && Rebooking.FreeOn(view, SeatOf(sla[0])) >= 1
      then Some(sla[0])
      else Fallback(view, sla[1..], pending)
  }

  /** Somebody unseated whose claim, if any, has been blocked for two rounds tries elsewhere. */
  function FallbackBid(view: AgentView, n: Need): (ps: seq<Proposal>)
    ensures forall p :: p in ps ==> p.agent == NAME
  {
    var pending := PendingFor(view.myBlocked, n.pid);
    if n.pid in Rebooking.Seated(view) then []
    else if pending.Some? && view.round - pending.value.claim.committed < 2 then []
    else
      match Fallback(view, n.sla, pending)
      case None => []
      case Some(f) =>
        assert NoDup([n.pid]);
        [SeatBid(f, [n.pid], "fallback SLA re-accommodation for " + n.pid)]
  }

  function FallbackBids(view: AgentView, needs: seq<Need>): (ps: seq<Proposal>)
    ensures forall p :: p in ps ==> p.agent == NAME
  {
    if needs == [] then [] else FallbackBid(view, needs[0]) + FallbackBids(view, needs[1..])
  }

  predicate ByPid(a: Need, b: Need) { NameLe(a.pid, b.pid) }

  function Propose(t: Table, view: AgentView): (ps: seq<Proposal>)
    ensures forall p :: p in ps ==> p.agent == NAME
  {
    if view.round == 1 then FirstRound(t) else FallbackBids(view, SortBy(t, ByPid))
  }

  function Respond(t: Table, view: AgentView): (ps: seq<Position>)
    ensures forall p :: p in ps ==> p.agent == NAME && p.stance == Block
  {
    if Rebooking.FirstOn(view.myBlocked, SeatOf(QW441)).Some?
    then Rebooking.ChallengeFirst(view, NAME, Rebooking.Rivals(view, SeatOf(QW441), NAME))
    else []
  }

  function AdvocateAgent(t: Table): (a: Agent)
    ensures a.name == NAME
  {
    Agent(NAME, v => Propose(t, v), v => Respond(t, v))
  }
}
