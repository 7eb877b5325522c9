/** The duty manager's fiat at the round cap: illegal crews out, then seats by protection while they last. */
module Fiat {
  import opened Order
  import opened Schemas
  import opened Rounds
  import opened Scenario
  import L = Ledger

  type Roster = map<Name, Passenger>

  const UNKNOWN_RANK := 9
  const CITATIONS: seq<string> := ["dot-259.4", "far117.11"]

  // ---------------------------------------------------------------- protection order

  function Rank(pax: Roster, b: Name): nat {
    if b in pax then Priority(pax[b]) else UNKNOWN_RANK
  }

  /** `min(prio(b) for b in beneficiaries)`. */
  function BestRank(pax: Roster, bens: seq<Name>): (m: nat)
    requires bens != []
    ensures (exists b :: b in bens && Rank(pax, b) == m) && forall b :: b in bens ==> m <= Rank(pax, b)
  {
    if |bens| == 1 then
      assert bens[0] in bens;
      Rank(pax, bens[0])
    else
      var rest := BestRank(pax, bens[1..]);
      assert bens == [bens[0]] + bens[1..];
      if Rank(pax, bens[0]) <= rest then
        assert bens[0] in bens;
        Rank(pax, bens[0])
      else rest
  }

  predicate ProtectedLe(pax: Roster, a: ClaimView, b: ClaimView) {
    var x, y := BestRank(pax, a.claim.proposal.beneficiaries), BestRank(pax, b.claim.proposal.beneficiaries);
    if x != y then x < y else a.id <= b.id
  }

  /** Claims by their best-protected beneficiary, then by id. */
  function ByProtection(pax: Roster): (ClaimView, ClaimView) -> bool {
    (a, b) => ProtectedLe(pax, a, b)
  }

  lemma ByProtectionOrder(pax: Roster)
    ensures Total(ByProtection(pax)) && Transitive(ByProtection(pax))
  {
    var le := ByProtection(pax);
    hide BestRank;
    assert forall a, b :: le(a, b) <==> ProtectedLe(pax, a, b);
  }

  // ---------------------------------------------------------------- challenges against crews

  /** Ops so far, and the agents they credit or blame. */
  datatype Sway = Sway(ops: seq<RulingOp>, winners: set<Name>, losers: set<Name>)

  function FindClaim(vs: seq<ClaimView>, id: nat): (r: Option<ClaimView>)
    ensures r.Some? ==> r.value in vs && r.value.id == id
    ensures r.None? ==> forall v :: v in vs ==> v.id != id
  {
    if vs == [] then None
    else
      assert vs == [vs[0]] + vs[1..];
      if vs[0].id == id then Some(vs[0]) else FindClaim(vs[1..], id)
  }

  function DutyLeft(duty: map<Name, int>, crew: Name): int {
    if crew in duty then duty[crew] else 0
  }

  predicate CrewClaim(v: ClaimView) {
    StartsWith(v.claim.proposal.resource, CREW_PREFIX)
  }

  predicate DutyIllegal(duty: map<Name, int>, required: int, v: ClaimView) {
    DutyLeft(duty, v.claim.proposal.beneficiaries[0]) < required
  }

  predicate Targeted(ops: seq<RulingOp>, id: nat) {
    exists o :: o in ops && o.claim == id
  }

  function VoidOf(id: nat): RulingOp { RulingOp(OpKind.Void, id, None) }

  function CrewStep(s: Sway, x: ContestView, granted: seq<ClaimView>, duty: map<Name, int>, required: int): Sway {
    match FindClaim(granted, x.target)
    case None => s
    case Some(v) =>
      if !CrewClaim(v) then s
      else if DutyIllegal(duty, required, v) then
        if Targeted(s.ops, x.target) then s.(winners := s.winners + {x.agent})
        else Sway(s.ops + [VoidOf(x.target)], s.winners + {x.agent}, s.losers + {v.claim.proposal.agent})
      else s.(losers := s.losers + {x.agent})
  }

  function CrewPart(xs: seq<ContestView>, granted: seq<ClaimView>, duty: map<Name, int>, required: int): Sway
    decreases |xs|
  {
    if xs == [] then Sway([], {}, {})
    else CrewStep(CrewPart(xs[..|xs|-1], granted, duty, required), xs[|xs|-1], granted, duty, required)
  }

  // ---------------------------------------------------------------- blocked claims

  datatype Division = Division(free: map<Name, int>, ops: seq<RulingOp>, winners: set<Name>)

  function RoomOn(free: map<Name, int>, r: Name): int {
    if r in free then free[r] else 0
  }

  /** A grant of the first `n` beneficiaries; a whole grant names nobody. */
  function GrantOf(v: ClaimView, n: nat): RulingOp
    requires n <= |v.claim.proposal.beneficiaries|
  {
    var bens := v.claim.proposal.beneficiaries;
    RulingOp(Grant, v.id, if n == |bens| then None else Some(bens[..n]))
  }

  function ShareStep(d: Division, v: ClaimView): Division {
    var p := v.claim.proposal;
    var n := Min(|p.beneficiaries|, RoomOn(d.free, p.resource));
    if n <= 0 then d.(ops := d.ops + [VoidOf(v.id)])
    else Division(d.free[p.resource := d.free[p.resource] - n], d.ops + [GrantOf(v, n)], d.winners + {p.agent})
  }

  /** The blocked claims served in the given order out of the free units. */
  function Share(free: map<Name, int>, queue: seq<ClaimView>): Division
    decreases |queue|
  {
    if queue == [] then Division(free, [], {})
    else ShareStep(Share(free, queue[..|queue|-1]), queue[|queue|-1])
  }

  function FreeUnits(rs: map<Name, ResourceView>): map<Name, int> {
    map r | r in rs :: rs[r].free
  }

  function Queue(view: AgentView, pax: Roster): seq<ClaimView> {
    SortBy(view.blocked, ByProtection(pax))
  }

  lemma FiatCites()
    ensures Cites(CITATIONS)
  {
    assert 'd' in "dot-259.4" && !Whitespace('d');
    assert "dot-259.4" in CITATIONS && !Blank("dot-259.4");
  }

  function FiatRuling(view: AgentView, pax: Roster, duty: map<Name, int>, required: int): Schemas.Ruling {
    var crews := CrewPart(view.openContests, view.granted, duty, required);
    var seats := Share(FreeUnits(view.resources), Queue(view, pax));
    var winners, losers := L.SortedNames(crews.winners + seats.winners), L.SortedNames(crews.losers);
    FiatCites();
    RulingFields.Ruling(CITATIONS, crews.ops + seats.ops, winners, losers)
  }

  // ---------------------------------------------------------------- who gets what

  /** Units the claims of a queue ask of a resource. */
  function Demand(queue: seq<ClaimView>, r: Name): nat
    decreases |queue|
  {
    if queue == [] then 0
    else
      var v := queue[|queue|-1];
      Demand(queue[..|queue|-1], r) + if v.claim.proposal.resource == r then |v.claim.proposal.beneficiaries| else 0
  }

  /** Units an op on the claim hands out. */
  function Amount(v: ClaimView, op: RulingOp): nat {
    if op.op != Grant then 0
    else if op.beneficiaries.Some? then |op.beneficiaries.value|
    else |v.claim.proposal.beneficiaries|
  }

  /** What is left of `room` after `asked`, but never more than `qty` nor less than nothing. */
  function Portion(room: int, asked: nat, qty: nat): nat {
    if room <= asked then 0 else Min(qty, room - asked)
  }

  function Left(room: int, asked: nat): int {
    if room <= 0 then room else if room <= asked then 0 else room - asked
  }

  lemma {:induction false} ShareLeaves(free: map<Name, int>, queue: seq<ClaimView>, r: Name)
    ensures var d := Share(free, queue);
            |d.ops| == |queue| && d.free.Keys == free.Keys && RoomOn(d.free, r) == Left(RoomOn(free, r), Demand(queue, r))
    decreases |queue|
  {
    if queue != [] {
      ShareLeaves(free, queue[..|queue|-1], r);
      ShareLeaves(free, queue[..|queue|-1], queue[|queue|-1].claim.proposal.resource);
    }
  }

  /**
   * In closed form: a claim gets whatever its resource has left after all that earlier claims asked of it, up to
   * its own quantity, and it goes to the claim's first beneficiaries.
   */
  lemma {:induction false} FiatShares(free: map<Name, int>, queue: seq<ClaimView>, i: nat)
    requires i < |queue|
    ensures var (ops, v) := (Share(free, queue).ops, queue[i]);
            var n := Portion(RoomOn(free, v.claim.proposal.resource), Demand(queue[..i], v.claim.proposal.resource), |v.claim.proposal.beneficiaries|);
            && |ops| == |queue| && ops[i].claim == v.id && Amount(v, ops[i]) == n
            && ops[i] == if n == 0 then VoidOf(v.id) else GrantOf(v, n)
    decreases |queue|
  {
    var prefix := queue[..|queue|-1];
    ShareLeaves(free, prefix, queue[|queue|-1].claim.proposal.resource);
    if i < |queue| - 1 {
      FiatShares(free, prefix, i);
      assert prefix[..i] == queue[..i];
    } else {
      assert queue[..i] == prefix;
    }
  }

  /** Units handed out on a resource. */
  function Handed(queue: seq<ClaimView>, ops: seq<RulingOp>, r: Name): nat
    requires |ops| == |queue|
    decreases |queue|
  {
    if queue == [] then 0
    else
      var n := |queue| - 1;
      Handed(queue[..n], ops[..n], r) + if queue[n].claim.proposal.resource == r then Amount(queue[n], ops[n]) else 0
  }

  /** Nothing is wasted and nothing overdrawn: a resource hands out its free units or all it is asked for, whichever is less. */
  lemma {:induction false} FiatHandsOut(free: map<Name, int>, queue: seq<ClaimView>, r: Name)
    ensures |Share(free, queue).ops| == |queue|
    ensures Handed(queue, Share(free, queue).ops, r) == if RoomOn(free, r) <= 0 then 0 else Min(RoomOn(free, r), Demand(queue, r))
    decreases |queue|
  {
    if queue != [] {
      var n := |queue| - 1;
      FiatHandsOut(free, queue[..n], r);
      FiatShares(free, queue, n);
      assert Share(free, queue).ops[..n] == Share(free, queue[..n]).ops;
    }
  }

  lemma {:induction false} DemandGrows(queue: seq<ClaimView>, i: nat, j: nat, r: Name)
    requires i < j <= |queue| && queue[i].claim.proposal.resource == r
    ensures Demand(queue[..i], r) + |queue[i].claim.proposal.beneficiaries| <= Demand(queue[..j], r)
    decreases j
  {
    assert queue[..j][..j-1] == queue[..j-1];
    if i < j - 1 { DemandGrows(queue, i, j - 1, r); }
  }

  /** Once a claim gets less than it asked for, every later claim on that resource is voided. */
  lemma FiatCutsOff(free: map<Name, int>, queue: seq<ClaimView>, i: nat, j: nat)
    requires i < j < |queue| && queue[i].claim.proposal.resource == queue[j].claim.proposal.resource
    ensures var ops := Share(free, queue).ops;
            && |ops| == |queue|
            && (Amount(queue[i], ops[i]) < |queue[i].claim.proposal.beneficiaries| ==> ops[j] == VoidOf(queue[j].id))
  {
    FiatShares(free, queue, i);
    FiatShares(free, queue, j);
    DemandGrows(queue, i, j, queue[i].claim.proposal.resource);
  }

  // ---------------------------------------------------------------- challenged crews

  /** A contest whose target is a granted crew claim with too little duty left. */
  predicate Condemns(x: ContestView, granted: seq<ClaimView>, duty: map<Name, int>, required: int, id: nat) {
    var v := FindClaim(granted, x.target);
    x.target == id && v.Some? && CrewClaim(v.value) && DutyIllegal(duty, required, v.value)
  }

  /** Only voids, and no claim twice. */
  predicate VoidsOnce(ops: seq<RulingOp>) {
    (forall o :: o in ops ==> o == VoidOf(o.claim)) && (forall i, j :: 0 <= i < j < |ops| ==> ops[i].claim != ops[j].claim)
  }

  /** The first part voids each challenged, duty-illegal crew claim once, and nothing else. */
  lemma {:induction false} CrewPartExact(xs: seq<ContestView>, granted: seq<ClaimView>, duty: map<Name, int>, required: int)
    ensures var ops := CrewPart(xs, granted, duty, required).ops;
            && VoidsOnce(ops)
            && (forall id :: Targeted(ops, id) <==> exists x :: x in xs && Condemns(x, granted, duty, required, id))
    decreases |xs|
  {
    if xs == [] {
      assert VoidsOnce(CrewPart(xs, granted, duty, required).ops);
    } else {
      var rest, x := xs[..|xs|-1], xs[|xs|-1];
      CrewPartExact(rest, granted, duty, required);
      var s := CrewPart(rest, granted, duty, required);
      assert forall y :: y in xs <==> y in rest || y == x;
      CrewStepOps(s, x, granted, duty, required);
      hide CrewStep, Condemns, Targeted, VoidOf, VoidsOnce;
      CondemnsOne(xs, x, rest, granted, duty, required);
      TargetedMore(s.ops, x.target);
      if !Targeted(s.ops, x.target) { OneMoreVoid(s.ops, x.target); }
    }
  }

  lemma CrewStepOps(s: Sway, x: ContestView, granted: seq<ClaimView>, duty: map<Name, int>, required: int)
    ensures CrewStep(s, x, granted, duty, required).ops
         == if Condemns(x, granted, duty, required, x.target) && !Targeted(s.ops, x.target) then s.ops + [VoidOf(x.target)] else s.ops
  {
    hide CrewClaim, DutyIllegal, Targeted;
  }

  lemma CondemnsOne(xs: seq<ContestView>, x: ContestView, rest: seq<ContestView>, granted: seq<ClaimView>, duty: map<Name, int>, required: int)
    requires forall y :: y in xs <==> y in rest || y == x
    ensures forall id :: (exists y :: y in xs && Condemns(y, granted, duty, required, id))
                         <==> (exists y :: y in rest && Condemns(y, granted, duty, required, id)) || Condemns(x, granted, duty, required, id)
    ensures forall id :: Condemns(x, granted, duty, required, id) ==> id == x.target
  {}

  lemma OneMoreVoid(ops: seq<RulingOp>, id: nat)
    requires VoidsOnce(ops) && !Targeted(ops, id)
    ensures VoidsOnce(ops + [VoidOf(id)])
  {
    assert forall i :: 0 <= i < |ops| ==> ops[i] in ops;
  }

  lemma TargetedMore(ops: seq<RulingOp>, id: nat)
    ensures forall j :: Targeted(ops + [VoidOf(id)], j) <==> Targeted(ops, j) || j == id
  {
    var more := ops + [VoidOf(id)];
    assert more[|ops|] == VoidOf(id);
    forall j ensures Targeted(more, j) <==> Targeted(ops, j) || j == id {
      if o :| o in ops && o.claim == j { assert o in more; }
      if o :| o in more && o.claim == j { assert o in ops || o == VoidOf(id); }
      if j == id { assert more[|ops|] in more; }
    }
  }

  // ---------------------------------------------------------------- one op for each blocked claim

  predicate OnlyAt(ops: seq<RulingOp>, id: nat, k: nat) {
    k < |ops| && ops[k].claim == id && forall m :: 0 <= m < |ops| && ops[m].claim == id ==> m == k
  }

  ghost predicate DistinctIds(vs: seq<ClaimView>) {
    forall i, j :: 0 <= i < j < |vs| ==> vs[i].id != vs[j].id
  }

  /** Exactly one op is about the claim, and it grants or voids it. */
  ghost predicate DecidedOnce(ops: seq<RulingOp>, id: nat) {
    exists k: nat :: OnlyAt(ops, id, k) && (ops[k].op == Grant || ops[k].op == OpKind.Void)
  }

  lemma CrewsElsewhere(view: AgentView, duty: map<Name, int>, required: int, id: nat)
    requires forall a :: a in view.granted ==> a.id != id
    ensures !Targeted(CrewPart(view.openContests, view.granted, duty, required).ops, id)
  {
    hide CrewPart, CrewClaim, DutyIllegal, Targeted;
    CrewPartExact(view.openContests, view.granted, duty, required);
    assert forall x :: !Condemns(x, view.granted, duty, required, id);
  }

  /** In a fiat ruling each blocked claim of the view has exactly one op, a grant or a void. */
  lemma FiatDecidesEach(view: AgentView, pax: Roster, duty: map<Name, int>, required: int, v: ClaimView)
    requires DistinctIds(view.blocked) && v in view.blocked
    requires forall a, b :: a in view.granted && b in view.blocked ==> a.id != b.id
    ensures DecidedOnce(FiatRuling(view, pax, duty, required).ops, v.id)
  {
    hide Portion, Demand, CrewPart, Share, SortBy, Targeted;
    var queue := Queue(view, pax);
    QueueDistinct(view, pax);
    hide Queue;
    var crews, seats := CrewPart(view.openContests, view.granted, duty, required).ops, Share(FreeUnits(view.resources), queue).ops;
    CrewsElsewhere(view, duty, required, v.id);
    var i :| 0 <= i < |queue| && queue[i] == v;
    forall j | 0 <= j < |queue| ensures |seats| == |queue| && seats[j].claim == queue[j].id && (seats[j].op == Grant || seats[j].op == OpKind.Void) {
      FiatShares(FreeUnits(view.resources), queue, j);
    }
    OnePart(crews, seats, queue, v.id, i);
  }

  lemma OnePart(crews: seq<RulingOp>, seats: seq<RulingOp>, queue: seq<ClaimView>, id: nat, i: nat)
    requires !Targeted(crews, id) && |seats| == |queue| && DistinctIds(queue) && i < |queue| && queue[i].id == id
    requires forall j :: 0 <= j < |queue| ==> seats[j].claim == queue[j].id && (seats[j].op == Grant || seats[j].op == OpKind.Void)
    ensures DecidedOnce(crews + seats, id)
  {
    var ops, k := crews + seats, |crews| + i;
    assert forall m :: 0 <= m < |crews| ==> ops[m] in crews;
    assert forall m :: |crews| <= m < |ops| ==> ops[m] == seats[m - |crews|];
    assert ops[k] == seats[i];
    assert OnlyAt(ops, id, k);
  }

  lemma QueueDistinct(view: AgentView, pax: Roster)
    requires DistinctIds(view.blocked)
    ensures DistinctIds(Queue(view, pax)) && forall v :: v in Queue(view, pax) <==> v in view.blocked
  {
    var q := Queue(view, pax);
    SortByElems(view.blocked, ByProtection(pax));
    assert NoDup(view.blocked);
    forall i, j | 0 <= i < j < |q| ensures q[i].id != q[j].id {
      assert q[i] in view.blocked && q[j] in view.blocked && q[i] != q[j];
    }
  }

  /** The queue is in protection order, so a claim is never served before a better-protected one. */
  lemma QueueByProtection(view: AgentView, pax: Roster)
    ensures Sorted(Queue(view, pax), ByProtection(pax)) && multiset(Queue(view, pax)) == multiset(view.blocked)
    ensures var q := Queue(view, pax);
            forall i, j :: 0 <= i < j < |q| ==>
              var (x, y) := (BestRank(pax, q[i].claim.proposal.beneficiaries), BestRank(pax, q[j].claim.proposal.beneficiaries));
              x < y || (x == y && q[i].id <= q[j].id)
  {
    ByProtectionOrder(pax);
    SortBySorted(view.blocked, ByProtection(pax));
  }

  // ---------------------------------------------------------------- the loops

  method RuleFiat(view: AgentView, pax: Roster, duty: map<Name, int>, required: int) returns (r: Schemas.Ruling)
    ensures r == FiatRuling(view, pax, duty, required)
  {
    hide SortBy, CrewStep, ShareStep;
    var sway := Sway([], {}, {});
    for i := 0 to |view.openContests|
      invariant sway == CrewPart(view.openContests[..i], view.granted, duty, required)
    {
      assert view.openContests[..i+1][..i] == view.openContests[..i];
      sway := JudgeCrew(sway, view.openContests[i], view.granted, duty, required);
    }
    assert view.openContests[..|view.openContests|] == view.openContests;
    var free := FreeUnits(view.resources);
    var queue := Queue(view, pax);
    var d := Division(free, [], {});
    for i := 0 to |queue|
      invariant d == Share(free, queue[..i])
    {
      assert queue[..i+1][..i] == queue[..i];
      d := ServeClaim(d, queue[i]);
    }
    assert queue[..|queue|] == queue;
    FiatCites();
    r := RulingFields.Ruling(CITATIONS, sway.ops + d.ops, L.SortedNames(sway.winners + d.winners), L.SortedNames(sway.losers));
  }

  method JudgeCrew(s: Sway, x: ContestView, granted: seq<ClaimView>, duty: map<Name, int>, required: int) returns (t: Sway)
    ensures t == CrewStep(s, x, granted, duty, required)
  {
    t := s;
    var v := FindClaim(granted, x.target);
    if v.None? || !CrewClaim(v.value) { return; }
    if DutyLeft(duty, v.value.claim.proposal.beneficiaries[0]) < required {
      var known := false;
      for i := 0 to |s.ops|
        invariant known <==> Targeted(s.ops[..i], x.target)
      {
        assert s.ops[..i+1] == s.ops[..i] + [s.ops[i]];
        if s.ops[i].claim == x.target { known := true; }
      }
      assert s.ops[..|s.ops|] == s.ops;
      if !known { t := t.(ops := s.ops + [VoidOf(x.target)], losers := s.losers + {v.value.claim.proposal.agent}); }
      t := t.(winners := t.winners + {x.agent});
    } else {
      t := t.(losers := t.losers + {x.agent});
    }
  }

  method ServeClaim(d: Division, v: ClaimView) returns (e: Division)
    ensures e == ShareStep(d, v)
  {
    var p := v.claim.proposal;
    var room := if p.resource in d.free then d.free[p.resource] else 0;
    var n := Min(|p.beneficiaries|, room);
    if n <= 0 {
      e := d.(ops := d.ops + [VoidOf(v.id)]);
    } else {
      var op := if n == |p.beneficiaries| then RulingOp(Grant, v.id, None) else RulingOp(Grant, v.id, Some(p.beneficiaries[..n]));
      e := Division(d.free[p.resource := room - n], d.ops + [op], d.winners + {p.agent});
    }
  }
}
