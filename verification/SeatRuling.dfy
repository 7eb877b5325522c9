/** How the duty manager rules on contested seats: bump the least protected who can fly otherwise, then grant. */
module SeatRuling {
  import opened Order
  import opened Schemas
  import opened Rounds
  import opened Scenario
  import opened Fiat
  import L = Ledger
  import D = Detector

  /** Someone who could be bumped: from which claim, and onto which other seat resource. */
  datatype Candidate = Candidate(rank: nat, pid: Name, claim: nat, alt: Name)

  /** The manager's working copy of the seats, and the ruling so far. */
  datatype Desk = Desk(free: map<Name, int>, reserved: map<Name, nat>, ops: seq<RulingOp>, winners: set<Name>, losers: set<Name>)

  function SeatsFree(rs: map<Name, ResourceView>): map<Name, int> {
    map r | r in rs && IsSeat(r) :: rs[r].free
  }

  function Reserved(d: Desk, r: Name): nat {
    if r in d.reserved then d.reserved[r] else 0
  }

  function Usable(d: Desk, r: Name): int {
    RoomOn(d.free, r) - Reserved(d, r)
  }

  function LegalFlights(pax: Roster, b: Name): seq<Name> {
    if b in pax then pax[b].legal else []
  }

  /** The first legal flight with a usable seat, other than the contested one. */
  function FirstAlternative(d: Desk, legal: seq<Name>, exclude: Name): (r: Option<Name>)
    ensures r.Some? <==> exists f :: f in legal && SeatOf(f) != exclude && Usable(d, SeatOf(f)) >= 1
    ensures r.Some? ==> r.value != exclude
  {
    if legal == [] then None
    else
      assert legal == [legal[0]] + legal[1..];
      if SeatOf(legal[0]) != exclude && Usable(d, SeatOf(legal[0])) >= 1 then
        assert legal[0] in legal;
        Some(SeatOf(legal[0]))
      else FirstAlternative(d, legal[1..], exclude)
  }

  // ---------------------------------------------------------------- candidates

  /** Whose holders may be bumped for the blocked claim: revocable claims of others on the same resource. */
  predicate Bumpable(bc: ClaimView, gc: ClaimView) {
    var p, q := bc.claim.proposal, gc.claim.proposal;
    q.resource == p.resource && q.agent != p.agent && q.revocable
  }

  function Consider(d: Desk, pax: Roster, bc: ClaimView, gc: ClaimView, pid: Name): seq<Candidate> {
    var p := bc.claim.proposal;
    var alt := FirstAlternative(d, LegalFlights(pax, pid), p.resource);
    if Rank(pax, pid) <= BestRank(pax, p.beneficiaries) || alt == None then []
    else [Candidate(Rank(pax, pid), pid, gc.id, alt.value)]
  }

  function ConsiderAll(d: Desk, pax: Roster, bc: ClaimView, gc: ClaimView, pids: seq<Name>): seq<Candidate>
    decreases |pids|
  {
    if pids == [] then []
    else ConsiderAll(d, pax, bc, gc, pids[..|pids|-1]) + Consider(d, pax, bc, gc, pids[|pids|-1])
  }

  predicate NameGe(a: Name, b: Name) { NameLe(b, a) }

  function Gather(d: Desk, pax: Roster, bc: ClaimView, granted: seq<ClaimView>): seq<Candidate>
    decreases |granted|
  {
    if granted == [] then []
    else
      var gc := granted[|granted|-1];
      Gather(d, pax, bc, granted[..|granted|-1])
      + if Bumpable(bc, gc) then ConsiderAll(d, pax, bc, gc, SortBy(gc.holders, NameGe)) else []
  }

  predicate LessProtectedFirst(a: Candidate, b: Candidate) { a.rank >= b.rank }

  /** The least protected candidates, as many as are needed. */
  function Victims(d: Desk, pax: Roster, bc: ClaimView, granted: seq<ClaimView>, shortfall: nat): seq<Candidate> {
    var sorted := SortBy(Gather(d, pax, bc, granted), LessProtectedFirst);
    sorted[..Min(shortfall, |sorted|)]
  }

  // ---------------------------------------------------------------- bumping

  function BumpAll(d: Desk, r: Name, victims: seq<Candidate>): Desk
    decreases |victims|
  {
    if victims == [] then d
    else
      var e, v := BumpAll(d, r, victims[..|victims|-1]), victims[|victims|-1];
      e.(free := e.free[r := RoomOn(e.free, r) + 1], reserved := e.reserved[v.alt := Reserved(e, v.alt) + 1])
  }

  function PidsUnder(victims: seq<Candidate>, id: nat): seq<Name>
    decreases |victims|
  {
    if victims == [] then []
    else PidsUnder(victims[..|victims|-1], id) + if victims[|victims|-1].claim == id then [victims[|victims|-1].pid] else []
  }

  function ClaimsOf(victims: seq<Candidate>): set<nat> {
    set v | v in victims :: v.claim
  }

  function RevokeOp(victims: seq<Candidate>, id: nat): RulingOp {
    RulingOp(Revoke, id, Some(SortBy(PidsUnder(victims, id), NameLe)))
  }

  /** One revoke per claim that loses someone, in id order. */
  function RevokeOps(victims: seq<Candidate>, ids: seq<nat>): (ops: seq<RulingOp>)
    ensures |ops| == |ids| && forall i :: 0 <= i < |ids| ==> ops[i] == RevokeOp(victims, ids[i])
  {
    seq(|ids|, i requires 0 <= i < |ids| => RevokeOp(victims, ids[i]))
  }

  function Owners(granted: seq<ClaimView>, ids: set<nat>): set<Name> {
    set id | id in ids && FindClaim(granted, id).Some? :: FindClaim(granted, id).value.claim.proposal.agent
  }

  function Bump(d: Desk, pax: Roster, bc: ClaimView, granted: seq<ClaimView>): Desk {
    var p := bc.claim.proposal;
    if Usable(d, p.resource) >= |p.beneficiaries| then d
    else
      var victims := Victims(d, pax, bc, granted, |p.beneficiaries| - Usable(d, p.resource));
      var e := BumpAll(d, p.resource, victims);
      e.(ops := e.ops + RevokeOps(victims, D.SortedNats(ClaimsOf(victims))), losers := e.losers + Owners(granted, ClaimsOf(victims)))
  }

  /** One blocked claim: bump if short, then grant what fits. */
  function Serve(d: Desk, pax: Roster, bc: ClaimView, granted: seq<ClaimView>): Desk {
    var p := bc.claim.proposal;
    var e := Bump(d, pax, bc, granted);
    var n := Min(|p.beneficiaries|, Usable(e, p.resource));
    if n <= 0 then e
    else e.(ops := e.ops + [GrantOf(bc, n)], free := e.free[p.resource := RoomOn(e.free, p.resource) - n], winners := e.winners + {p.agent})
  }

  function ServeAll(d: Desk, pax: Roster, queue: seq<ClaimView>, granted: seq<ClaimView>): Desk
    decreases |queue|
  {
    if queue == [] then d else Serve(ServeAll(d, pax, queue[..|queue|-1], granted), pax, queue[|queue|-1], granted)
  }

  // ---------------------------------------------------------------- the ruling

  /** The blocked seat claims of the deadlock. */
  function Disputed(blocked: seq<ClaimView>, dl: Deadlock): seq<ClaimView>
    decreases |blocked|
  {
    if blocked == [] then []
    else
      var v := blocked[|blocked|-1];
      Disputed(blocked[..|blocked|-1], dl) + if v.id in dl.claims && IsSeat(v.claim.proposal.resource) then [v] else []
  }

  function FreshDesk(view: AgentView): Desk {
    Desk(SeatsFree(view.resources), map[], [], {}, {})
  }

  function Settled(view: AgentView, pax: Roster, dl: Deadlock): Desk {
    ServeAll(FreshDesk(view), pax, SortBy(Disputed(view.blocked, dl), ByProtection(pax)), view.granted)
  }

  /** Challengers of the deadlock's claims who won nothing have lost. */
  function Dismissed(xs: seq<ContestView>, dl: Deadlock, winners: set<Name>): set<Name> {
    set x | x in xs && x.target in dl.claims && x.agent !in winners :: x.agent
  }

  function FlagCitation(flag: string): Option<string> {
    match flag
    case "MED" => Some("med-policy.2")
    case "UM" => Some("um-policy.4")
    case "WCHR" => Some("wchr-policy.1")
    case "TC" => Some("conx-policy.7")
    case _ => None
  }

  const BASE_CITATION := "dot-259.4"

  function FlagsOf(pax: Roster, b: Name): seq<string> {
    if b in pax then pax[b].flags else []
  }

  function SeatCitations(pax: Roster, disputed: seq<ClaimView>): set<string> {
    {BASE_CITATION}
    + set v, b, f | v in disputed && b in v.claim.proposal.beneficiaries && f in FlagsOf(pax, b) && FlagCitation(f).Some? :: FlagCitation(f).value
  }

  lemma BaseCites(cs: seq<string>)
    requires BASE_CITATION in cs
    ensures Cites(cs)
  {
    assert 'd' in BASE_CITATION && !Whitespace('d');
    assert !Blank(BASE_CITATION);
  }

  function SeatsRuling(view: AgentView, pax: Roster, dl: Deadlock): Schemas.Ruling {
    var d := Settled(view, pax, dl);
    var cs := L.SortedNames(SeatCitations(pax, Disputed(view.blocked, dl)));
    BaseCites(cs);
    RulingFields.Ruling(cs, d.ops, L.SortedNames(d.winners), L.SortedNames(d.losers + Dismissed(view.openContests, dl, d.winners)))
  }

  // ---------------------------------------------------------------- the loops

  method FindCandidates(d: Desk, pax: Roster, bc: ClaimView, granted: seq<ClaimView>) returns (cs: seq<Candidate>)
    ensures cs == Gather(d, pax, bc, granted)
  {
    hide SortBy, ConsiderAll, Bumpable;
    cs := [];
    for i := 0 to |granted|
      invariant cs == Gather(d, pax, bc, granted[..i])
    {
      assert granted[..i+1][..i] == granted[..i];
      if Bumpable(bc, granted[i]) {
        var more := WeighHolders(d, pax, bc, granted[i], SortBy(granted[i].holders, NameGe));
        cs := cs + more;
      }
    }
    assert granted[..|granted|] == granted;
  }

  method WeighHolders(d: Desk, pax: Roster, bc: ClaimView, gc: ClaimView, pids: seq<Name>) returns (cs: seq<Candidate>)
    ensures cs == ConsiderAll(d, pax, bc, gc, pids)
  {
    hide FirstAlternative, Rank, BestRank, LegalFlights;
    cs := [];
    var p := bc.claim.proposal;
    for k := 0 to |pids|
      invariant cs == ConsiderAll(d, pax, bc, gc, pids[..k])
    {
      assert pids[..k+1][..k] == pids[..k];
      if Rank(pax, pids[k]) > BestRank(pax, p.beneficiaries) {
        var alt := FirstAlternative(d, LegalFlights(pax, pids[k]), p.resource);
        if alt.Some? { cs := cs + [Candidate(Rank(pax, pids[k]), pids[k], gc.id, alt.value)]; }
      }
    }
    assert pids[..|pids|] == pids;
  }

  /** Counts the victims' seats as freed and their alternatives as spoken for, and groups them by claim. */
  method CountVictims(d: Desk, r: Name, victims: seq<Candidate>) returns (e: Desk, byClaim: map<nat, seq<Name>>)
    ensures e == BumpAll(d, r, victims)
    ensures Grouped(byClaim, victims)
  {
    hide BumpAll, Grouped, Reserved, RoomOn;
    e, byClaim := d, map[];
    NoVictims(d, r);
    for i := 0 to |victims|
      invariant e == BumpAll(d, r, victims[..i]) && Grouped(byClaim, victims[..i])
    {
      var v := victims[i];
      BumpMore(d, r, victims, i);
      GroupMore(victims, i, byClaim);
      byClaim := byClaim[v.claim := (if v.claim in byClaim then byClaim[v.claim] else []) + [v.pid]];
      e := e.(free := e.free[r := RoomOn(e.free, r) + 1], reserved := e.reserved[v.alt := Reserved(e, v.alt) + 1]);
    }
    assert victims[..|victims|] == victims;
  }

  predicate Grouped(byClaim: map<nat, seq<Name>>, victims: seq<Candidate>) {
    byClaim.Keys == ClaimsOf(victims) && forall id :: id in byClaim ==> byClaim[id] == PidsUnder(victims, id)
  }

  lemma NoVictims(d: Desk, r: Name)
    ensures BumpAll(d, r, []) == d && Grouped(map[], [])
  {}

  lemma BumpMore(d: Desk, r: Name, victims: seq<Candidate>, i: nat)
    requires i < |victims|
    ensures var (v, e) := (victims[i], BumpAll(d, r, victims[..i]));
            BumpAll(d, r, victims[..i+1]) == e.(free := e.free[r := RoomOn(e.free, r) + 1], reserved := e.reserved[v.alt := Reserved(e, v.alt) + 1])
  {
    hide Reserved, RoomOn;
    assert victims[..i+1][..i] == victims[..i];
  }

  lemma {:induction false} NobodyUnder(victims: seq<Candidate>, id: nat)
    requires id !in ClaimsOf(victims)
    ensures PidsUnder(victims, id) == []
    decreases |victims|
  {
    if victims != [] {
      assert victims[|victims|-1] in victims;
      assert forall v :: v in victims[..|victims|-1] ==> v in victims;
      NobodyUnder(victims[..|victims|-1], id);
    }
  }

  lemma GroupMore(victims: seq<Candidate>, i: nat, byClaim: map<nat, seq<Name>>)
    requires i < |victims| && Grouped(byClaim, victims[..i])
    ensures var v := victims[i];
            Grouped(byClaim[v.claim := (if v.claim in byClaim then byClaim[v.claim] else []) + [v.pid]], victims[..i+1])
  {
    var v, next := victims[i], victims[..i+1];
    assert next[..i] == victims[..i] && next == victims[..i] + [v];
    assert ClaimsOf(next) == ClaimsOf(victims[..i]) + {v.claim};
    hide ClaimsOf;
    assert forall id :: PidsUnder(next, id) == PidsUnder(victims[..i], id) + if v.claim == id then [v.pid] else [];
    hide PidsUnder;
    if v.claim !in byClaim { NobodyUnder(victims[..i], v.claim); }
  }

  method BumpFor(d: Desk, pax: Roster, bc: ClaimView, granted: seq<ClaimView>) returns (e: Desk)
    ensures e == Bump(d, pax, bc, granted)
  {
    hide SortBy, Gather, BumpAll, PidsUnder, ClaimsOf, Owners, Usable, RevokeOps, RevokeOp, D.SortedNats, BestRank;
    var p := bc.claim.proposal;
    if Usable(d, p.resource) >= |p.beneficiaries| { return d; }
    var shortfall := |p.beneficiaries| - Usable(d, p.resource);
    var candidates := FindCandidates(d, pax, bc, granted);
    var sorted := SortBy(candidates, LessProtectedFirst);
    var victims := sorted[..Min(shortfall, |sorted|)];
    var byClaim;
    e, byClaim := CountVictims(d, p.resource, victims);
    var ids := D.SortedNats(byClaim.Keys);
    var ops := ListRevokes(victims, byClaim, ids);
    e := e.(ops := e.ops + ops, losers := e.losers + Owners(granted, byClaim.Keys));
  }

  method ListRevokes(victims: seq<Candidate>, byClaim: map<nat, seq<Name>>, ids: seq<nat>) returns (ops: seq<RulingOp>)
    requires forall id :: id in ids ==> id in byClaim && byClaim[id] == PidsUnder(victims, id)
    ensures ops == RevokeOps(victims, ids)
  {
    hide SortBy, PidsUnder;
    ops := [];
    for i := 0 to |ids|
      invariant |ops| == i && forall k :: 0 <= k < i ==> ops[k] == RevokeOp(victims, ids[k])
    {
      ops := ops + [RulingOp(Revoke, ids[i], Some(SortBy(byClaim[ids[i]], NameLe)))];
    }
  }

  method RuleSeats(view: AgentView, pax: Roster, dl: Deadlock) returns (r: Schemas.Ruling)
    ensures r == SeatsRuling(view, pax, dl)
  {
    hide SortBy, Bump, GrantOf, Usable, SeatCitations;
    var disputed := FindDisputed(view.blocked, dl);
    var queue := SortBy(disputed, ByProtection(pax));
    var d := FreshDesk(view);
    for i := 0 to |queue|
      invariant d == ServeAll(FreshDesk(view), pax, queue[..i], view.granted)
    {
      assert queue[..i+1][..i] == queue[..i];
      var bc := queue[i];
      var p := bc.claim.proposal;
      d := BumpFor(d, pax, bc, view.granted);
      var n := Min(|p.beneficiaries|, Usable(d, p.resource));
      if n > 0 {
        d := d.(ops := d.ops + [GrantOf(bc, n)], free := d.free[p.resource := RoomOn(d.free, p.resource) - n], winners := d.winners + {p.agent});
      }
    }
    assert queue[..|queue|] == queue;
    var cs := L.SortedNames(SeatCitations(pax, disputed));
    assert cs == L.SortedNames(SeatCitations(pax, Disputed(view.blocked, dl)));
    InCitations(pax, disputed);
    BaseCites(cs);
    r := RulingFields.Ruling(cs, d.ops, L.SortedNames(d.winners), L.SortedNames(d.losers + Dismissed(view.openContests, dl, d.winners)));
  }

  lemma InCitations(pax: Roster, disputed: seq<ClaimView>)
    ensures BASE_CITATION in SeatCitations(pax, disputed)
  {}

  method FindDisputed(blocked: seq<ClaimView>, dl: Deadlock) returns (r: seq<ClaimView>)
    ensures r == Disputed(blocked, dl)
  {
    hide IsSeat;
    r := [];
    for i := 0 to |blocked|
      invariant r == Disputed(blocked[..i], dl)
    {
      assert blocked[..i+1][..i] == blocked[..i];
      if blocked[i].id in dl.claims && IsSeat(blocked[i].claim.proposal.resource) { r := r + [blocked[i]]; }
    }
    assert blocked[..|blocked|] == blocked;
  }
}
