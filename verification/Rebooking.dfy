/** The rebooking desk's bids: seats for whoever risks a connection most, nobody twice. */
module Rebooking {
  import opened Order
  import opened Schemas
  import opened Rounds
  import opened Scenario

  const NAME: Name := "rebooking"
  const WAVE_1_QW519 := 15

  type Passengers = p: seq<Passenger> | Distinct(p) witness []

  /** What the desk knows: the private risk table, the passengers, and the first reserve crew. */
  datatype Desk = Desk(risk: map<Name, int>, pax: Passengers, crew: Name)

  function RiskOf(d: Desk, b: Name): int {
    if b in d.risk then d.risk[b] else 0
  }

  predicate RiskLe(d: Desk, a: Name, b: Name) {
    if RiskOf(d, a) != RiskOf(d, b) then RiskOf(d, a) > RiskOf(d, b) else NameLe(a, b)
  }

  /** Highest connection risk first, then by id. */
  function ByRisk(d: Desk): (Name, Name) -> bool {
    (a, b) => RiskLe(d, a, b)
  }

  lemma ByRiskOrder(d: Desk)
    ensures TotalOrder(ByRisk(d))
  {
    NameOrder();
    var le := ByRisk(d);
    hide NameLe;
    assert forall a, b :: le(a, b) <==> RiskLe(d, a, b);
  }

  // ---------------------------------------------------------------- reading the view

  function GroupOn(view: AgentView, r: Name): Option<Name> {
    if r in view.resources then view.resources[r].group else None
  }

  function FreeOn(view: AgentView, r: Name): int {
    if r in view.resources then view.resources[r].free else 0
  }

  /** Everyone the view shows holding a unit of the group. */
  function HoldingIn(view: AgentView, group: Name): set<Name> {
    set v, b | v in view.granted && GroupOn(view, v.claim.proposal.resource) == Some(group) && b in v.holders :: b
  }

  /** Everyone holding a seat. */
  function Seated(view: AgentView): set<Name> {
    HoldingIn(view, SEAT)
  }

  /** Everyone my blocked claims name or my granted claims serve. */
  function Pending(view: AgentView): set<Name> {
    (set v, b | v in view.myBlocked && b in v.claim.proposal.beneficiaries :: b) + (set v, b | v in view.myGranted && b in v.holders :: b)
  }

  predicate OnResource(v: ClaimView, r: Name) {
    v.claim.proposal.resource == r
  }

  function FirstOn(vs: seq<ClaimView>, r: Name): (x: Option<ClaimView>)
    ensures x.Some? ==> x.value in vs && OnResource(x.value, r)
    ensures x.None? ==> forall v :: v in vs ==> !OnResource(v, r)
  {
    if vs == [] then None
    else
      assert vs == [vs[0]] + vs[1..];
      if OnResource(vs[0], r) then Some(vs[0]) else FirstOn(vs[1..], r)
  }

  predicate IsRival(v: ClaimView, r: Name, me: Name) {
    OnResource(v, r) && v.claim.proposal.agent != me && v.holders != []
  }

  function RivalsIn(vs: seq<ClaimView>, r: Name, me: Name): (x: seq<ClaimView>)
    ensures forall v :: v in x <==> v in vs && IsRival(v, r, me)
  {
    if vs == [] then []
    else
      assert vs == [vs[0]] + vs[1..];
      (if IsRival(vs[0], r, me) then [vs[0]] else []) + RivalsIn(vs[1..], r, me)
  }

  predicate BiggerFirst(a: ClaimView, b: ClaimView) {
    if |a.holders| != |b.holders| then |a.holders| > |b.holders| else a.id <= b.id
  }

  /** Others' granted claims on the resource, the biggest first. */
  function Rivals(view: AgentView, r: Name, me: Name): seq<ClaimView> {
    SortBy(RivalsIn(view.granted, r, me), BiggerFirst)
  }

  function HeldBy(vs: seq<ClaimView>): nat {
    if vs == [] then 0 else |vs[0].holders| + HeldBy(vs[1..])
  }

  // ---------------------------------------------------------------- one claim

  /** May be put on the flight: legal, not seated, not spoken for. */
  predicate OpenTo(view: AgentView, p: Passenger, flight: Name, taken: set<Name>) {
    flight in p.legal && p.id !in Seated(view) && p.id !in Pending(view) && p.id !in taken
  }

  function OpenIds(view: AgentView, pax: seq<Passenger>, flight: Name, taken: set<Name>): (r: seq<Name>)
    ensures forall b :: b in r <==> exists p :: p in pax && p.id == b && OpenTo(view, p, flight, taken)
    decreases |pax|
  {
    if pax == [] then []
    else
      var n := |pax| - 1;
      assert pax == pax[..n] + [pax[n]];
      OpenIds(view, pax[..n], flight, taken) + if OpenTo(view, pax[n], flight, taken) then [pax[n].id] else []
  }

  lemma {:induction false} OpenIdsDistinct(view: AgentView, pax: seq<Passenger>, flight: Name, taken: set<Name>)
    requires Distinct(pax)
    ensures NoDup(OpenIds(view, pax, flight, taken))
    decreases |pax|
  {
    hide OpenTo;
    if pax != [] {
      var n := |pax| - 1;
      OpenIdsDistinct(view, pax[..n], flight, taken);
      assert forall p :: p in pax[..n] ==> p.id != pax[n].id;
      assert pax[n].id !in OpenIds(view, pax[..n], flight, taken);
    }
  }

  function Candidates(d: Desk, view: AgentView, flight: Name, taken: set<Name>): (r: seq<Name>)
    ensures NoDup(r) && forall b :: b in r <==> exists p :: p in d.pax && p.id == b && OpenTo(view, p, flight, taken)
  {
    hide OpenTo;
    OpenIdsDistinct(view, d.pax, flight, taken);
    var ids := OpenIds(view, d.pax, flight, taken);
    SortByElems(ids, ByRisk(d));
    SortBy(ids, ByRisk(d))
  }

  datatype Wave = Wave(flight: Name, qty: int, basis: string)

  function Chosen(d: Desk, view: AgentView, w: Wave, taken: set<Name>): (r: seq<Name>)
    ensures NoDup(r)
  {
    var cands := Candidates(d, view, w.flight, taken);
    if w.qty <= 0 then [] else if w.qty < |cands| then cands[..w.qty] else cands
  }

  /** `_claim`: at most one proposal. */
  function ClaimWave(d: Desk, view: AgentView, w: Wave, taken: set<Name>): (r: seq<Proposal>)
    ensures |r| <= 1
  {
    var bens := Chosen(d, view, w, taken);
    if bens == [] then [] else [SeatProposal(w, bens)]
  }

  function SeatProposal(w: Wave, bens: seq<Name>): (p: Proposal)
    requires bens != [] && NoDup(bens)
    ensures p.agent == NAME && p.resource == SeatOf(w.flight) && p.beneficiaries == bens
  {
    var fields := ProposalFields.Proposal(NAME, SeatOf(w.flight), bens, w.basis, true);
    assert fields.beneficiaries == bens;
    fields
  }

  function NamedIn(ps: seq<Proposal>): set<Name> {
    set p, b | p in ps && b in p.beneficiaries :: b
  }

  /** The waves one after another, each leaving alone whoever an earlier one took. */
  function ClaimWaves(d: Desk, view: AgentView, ws: seq<Wave>): seq<Proposal>
    decreases |ws|
  {
    if ws == [] then []
    else
      var ps := ClaimWaves(d, view, ws[..|ws|-1]);
      ps + ClaimWave(d, view, ws[|ws|-1], NamedIn(ps))
  }

  // ---------------------------------------------------------------- a round's bids

  const LATE_FLIGHTS: seq<Name> := ["QW519", "QW602", "QW338", "QW258", "QW777"]

  function WaveOn(view: AgentView, flight: Name, basis: string): Wave {
    Wave(flight, FreeOn(view, SeatOf(flight)), basis)
  }

  function FillWaves(view: AgentView, flights: seq<Name>): seq<Wave> {
    if flights == [] then []
    else (if FirstOn(view.myBlocked, SeatOf(flights[0])).Some? then [] else [WaveOn(view, flights[0], "fill remaining seats by connection risk")])
         + FillWaves(view, flights[1..])
  }

  function Waves(view: AgentView): seq<Wave> {
    if view.round == 1 then
      [WaveOn(view, "QW441", "earliest DEN arrival for highest connection-risk pax"),
       Wave("QW519", Min(WAVE_1_QW519, FreeOn(view, SeatOf("QW519"))), "wave 1: protect remaining connection-risk on QW519")]
    else if view.round == 2 then
      (if FirstOn(view.myBlocked, SeatOf("QW519")).Some? then []
       else [Wave("QW519", FreeOn(view, SeatOf("QW519")) + HeldBy(Rivals(view, SeatOf("QW519"), NAME)),
                  "QW519 should carry connection-risk pax; WCHR can be assisted on QW602")])
      + [WaveOn(view, "QW338", "fill the ORD connection bank")]
    else FillWaves(view, LATE_FLIGHTS)
  }

  function FerryProposal(d: Desk): (p: Proposal)
    ensures p.agent == NAME && p.resource == FERRY && p.beneficiaries == [d.crew]
  {
    var fields := ProposalFields.Proposal(NAME, FERRY, [d.crew], "crew the FERRY-1 extra section: +50 seats of throughput", true);
    assert fields.beneficiaries == [d.crew];
    fields
  }

  function Propose(d: Desk, view: AgentView): seq<Proposal> {
    (if view.round == 1 then [FerryProposal(d)] else []) + ClaimWaves(d, view, Waves(view))
  }

  lemma NamedMore(ps: seq<Proposal>, p: Proposal)
    ensures NamedIn(ps + [p]) == NamedIn(ps) + Elems(p.beneficiaries)
  {
    assert forall q :: q in ps + [p] <==> q in ps || q == p;
  }

  /** The bids of a round, remembering as it goes whom this round has already placed. */
  method PlaceBids(d: Desk, view: AgentView) returns (ps: seq<Proposal>)
    ensures ps == Propose(d, view)
  {
    hide OpenTo, Candidates, NamedIn, Chosen, FerryProposal, SeatProposal, Waves;
    var seats: seq<Proposal>, taken: set<Name> := [], {};
    var ws := Waves(view);
    NobodyNamed();
    for i := 0 to |ws|
      invariant seats == ClaimWaves(d, view, ws[..i]) && taken == NamedIn(seats)
    {
      assert ws[..i+1][..i] == ws[..i];
      var bens := Chosen(d, view, ws[i], taken);
      if bens != [] {
        var p := SeatProposal(ws[i], bens);
        NamedMore(seats, p);
        seats := seats + [p];
        taken := taken + Elems(bens);
      }
    }
    assert ws[..|ws|] == ws;
    ps := (if view.round == 1 then [FerryProposal(d)] else []) + seats;
  }

  lemma NobodyNamed()
    ensures NamedIn([]) == {}
  {}

  // ---------------------------------------------------------------- a round's positions

  predicate Contests(view: AgentView, me: Name, target: nat) {
    exists x :: x in view.openContests && x.agent == me && x.target == target
  }

  /** Challenges the first rival not challenged yet. */
  function ChallengeFirst(view: AgentView, me: Name, rivals: seq<ClaimView>): (ps: seq<Position>)
    ensures |ps| <= 1 && forall p :: p in ps ==> p.agent == me && p.stance == Block
  {
    if rivals == [] then []
    else if Contests(view, me, rivals[0].id) then ChallengeFirst(view, me, rivals[1..])
    else [Position(me, Block, rivals[0].id, None)]
  }

  /** Speaks up for its own granted claims that are challenged. */
  function Defend(view: AgentView, xs: seq<ContestView>): (ps: seq<Position>)
    ensures forall p :: p in ps ==> p.agent == NAME && p.stance == Support
    decreases |xs|
  {
    if xs == [] then []
    else
      Defend(view, xs[..|xs|-1])
      + if exists v :: v in view.myGranted && v.id == xs[|xs|-1].target then [Position(NAME, Support, xs[|xs|-1].target, None)] else []
  }

  function Respond(d: Desk, view: AgentView): (ps: seq<Position>)
    ensures forall p :: p in ps ==> p.agent == NAME && p.stance != Yield
  {
    (if FirstOn(view.myBlocked, SeatOf("QW519")).Some? then ChallengeFirst(view, NAME, Rivals(view, SeatOf("QW519"), NAME)) else [])
    + Defend(view, view.openContests)
  }

  function RebookingAgent(d: Desk): (a: Agent)
    ensures a.name == NAME
  {
    Agent(NAME, v => Propose(d, v), v => Respond(d, v))
  }

  // ---------------------------------------------------------------- the bids are right

  /**
   * A rightful claim of a wave: only passengers open to the flight, in risk order, and if anyone open to it is
   * left out, the claim is at its full quantity and nobody in it comes after them.
   */
  ghost predicate Rightful(d: Desk, view: AgentView, w: Wave, taken: set<Name>, p: Proposal) {
    && p.agent == NAME && p.resource == SeatOf(w.flight) && |p.beneficiaries| <= w.qty && Sorted(p.beneficiaries, ByRisk(d))
    && (forall b :: b in p.beneficiaries ==> exists x :: x in d.pax && x.id == b && OpenTo(view, x, w.flight, taken))
    && (forall x, b :: x in d.pax && OpenTo(view, x, w.flight, taken) && x.id !in p.beneficiaries && b in p.beneficiaries
          ==> |p.beneficiaries| == w.qty && RiskLe(d, b, x.id))
  }

  lemma ChosenRightful(d: Desk, view: AgentView, w: Wave, taken: set<Name>)
    requires Chosen(d, view, w, taken) != []
    ensures Rightful(d, view, w, taken, SeatProposal(w, Chosen(d, view, w, taken)))
  {
    hide OpenTo, OpenIds, RiskLe, Candidates, SeatProposal;
    var cands, bens := Candidates(d, view, w.flight, taken), Chosen(d, view, w, taken);
    CandidatesSorted(d, view, w.flight, taken);
    assert bens == cands[..|bens|];
    assert forall b :: b in bens ==> b in cands;
    forall x, b | x in d.pax && OpenTo(view, x, w.flight, taken) && x.id !in bens && b in bens
      ensures |bens| == w.qty && RiskLe(d, b, x.id)
    {
      InCandidates(d, view, w.flight, taken, x);
      PrefixComesFirst(cands, |bens|, ByRisk(d), b, x.id);
      assert ByRisk(d)(b, x.id) == RiskLe(d, b, x.id);
    }
  }

  lemma CandidatesSorted(d: Desk, view: AgentView, flight: Name, taken: set<Name>)
    ensures Sorted(Candidates(d, view, flight, taken), ByRisk(d))
  {
    hide OpenIds, RiskLe;
    ByRiskOrder(d);
    SortBySorted(OpenIds(view, d.pax, flight, taken), ByRisk(d));
  }

  lemma InCandidates(d: Desk, view: AgentView, flight: Name, taken: set<Name>, x: Passenger)
    requires x in d.pax && OpenTo(view, x, flight, taken)
    ensures x.id in Candidates(d, view, flight, taken)
  {
    hide Candidates, OpenTo;
  }

  lemma PrefixComesFirst<T(!new)>(s: seq<T>, n: nat, le: (T, T) -> bool, b: T, x: T)
    requires n <= |s| && Sorted(s, le) && b in s[..n] && x in s && x !in s[..n]
    ensures le(b, x)
  {
    var i :| 0 <= i < n && s[i] == b;
    var j :| 0 <= j < |s| && s[j] == x;
    assert forall k :: 0 <= k < n ==> s[k] in s[..n];
  }

  /** Nobody is left waiting by a wave that had room: no claim means no quantity or nobody to take. */
  lemma NoClaimMeansNobody(d: Desk, view: AgentView, w: Wave, taken: set<Name>)
    requires ClaimWave(d, view, w, taken) == [] && w.qty > 0
    ensures forall x :: x in d.pax ==> !OpenTo(view, x, w.flight, taken)
  {
    hide OpenTo, OpenIds;
    var cands := Candidates(d, view, w.flight, taken);
    assert cands == [];
    forall x | x in d.pax ensures !OpenTo(view, x, w.flight, taken) { assert x.id !in cands; }
  }

  /** The claims of a list of waves are rightful, one wave each, and pairwise disjoint. */
  ghost predicate Bids(d: Desk, view: AgentView, ws: seq<Wave>, ps: seq<Proposal>) {
    && (forall k :: 0 <= k < |ps| ==> exists w :: w in ws && Rightful(d, view, w, NamedIn(ps[..k]), ps[k]))
    && (forall j, k, b :: 0 <= j < k < |ps| && b in ps[j].beneficiaries ==> b !in ps[k].beneficiaries)
  }

  lemma {:induction false} WavesAreBids(d: Desk, view: AgentView, ws: seq<Wave>)
    ensures Bids(d, view, ws, ClaimWaves(d, view, ws))
    decreases |ws|
  {
    hide Rightful, ClaimWave, Bids, NamedIn;
    if ws == [] {
      NoBids(d, view);
    } else {
      var n := |ws| - 1;
      var w, before := ws[n], ClaimWaves(d, view, ws[..n]);
      WavesAreBids(d, view, ws[..n]);
      var one := ClaimWave(d, view, w, NamedIn(before));
      WaveIsRightful(d, view, w, NamedIn(before));
      BidsMore(d, view, ws, before, one);
    }
  }

  lemma NoBids(d: Desk, view: AgentView)
    ensures Bids(d, view, [], [])
  {}

  lemma WaveIsRightful(d: Desk, view: AgentView, w: Wave, taken: set<Name>)
    ensures var one := ClaimWave(d, view, w, taken); one != [] ==> Rightful(d, view, w, taken, one[0])
  {
    hide Rightful, Chosen;
    if ClaimWave(d, view, w, taken) != [] { ChosenRightful(d, view, w, taken); }
  }

  lemma BidsMore(d: Desk, view: AgentView, ws: seq<Wave>, before: seq<Proposal>, one: seq<Proposal>)
    requires ws != [] && Bids(d, view, ws[..|ws|-1], before) && |one| <= 1
    requires one != [] ==> Rightful(d, view, ws[|ws|-1], NamedIn(before), one[0])
    ensures Bids(d, view, ws, before + one)
  {
    var ps := before + one;
    if one == [] {
      assert ps == before;
    } else {
      RightfulAvoids(d, view, ws[|ws|-1], NamedIn(before), one[0]);
      assert ps[..|before|] == before;
    }
    hide Rightful;
    forall k | 0 <= k < |ps| ensures exists w :: w in ws && Rightful(d, view, w, NamedIn(ps[..k]), ps[k]) {
      assert ps[..k] == if k < |before| then before[..k] else before;
      if k < |before| {
        var w :| w in ws[..|ws|-1] && Rightful(d, view, w, NamedIn(before[..k]), before[k]);
        assert w in ws;
      }
    }
    hide Bids;
    StillDisjoint(before, one);
  }

  lemma StillDisjoint(before: seq<Proposal>, one: seq<Proposal>)
    requires |one| <= 1 && (one != [] ==> forall b :: b in one[0].beneficiaries ==> b !in NamedIn(before))
    requires forall j, k, b :: 0 <= j < k < |before| && b in before[j].beneficiaries ==> b !in before[k].beneficiaries
    ensures var ps := before + one; forall j, k, b :: 0 <= j < k < |ps| && b in ps[j].beneficiaries ==> b !in ps[k].beneficiaries
  {
    var ps := before + one;
    forall j, k, b | 0 <= j < k < |ps| && b in ps[j].beneficiaries ensures b !in ps[k].beneficiaries {
      assert j < |before| && ps[j] == before[j];
      if k < |before| {
        assert ps[k] == before[k];
      } else {
        assert ps[k] == one[0] && before[j] in before && b in NamedIn(before);
      }
    }
  }

  lemma RightfulAvoids(d: Desk, view: AgentView, w: Wave, taken: set<Name>, p: Proposal)
    requires Rightful(d, view, w, taken, p)
    ensures forall b :: b in p.beneficiaries ==> b !in taken && b !in Seated(view) && b !in Pending(view)
  {
    hide Seated, Pending;
  }
}
