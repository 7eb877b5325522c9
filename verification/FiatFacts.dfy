/** Which ops of a fiat ruling the ledger accepts, when they are applied one by one and refusals are passed over. */
module FiatFacts {
  import opened Order
  import opened Schemas
  import opened LedgerFacts
  import opened Rounds
  import opened Scenario
  import opened Fiat
  import opened SeatRulingFacts
  import MD = ManyDisputes
  import L = Ledger

  /** The ledger after the ops were applied in order; an op that raises changes nothing. */
  function Applied(s: L.State, ops: seq<RulingOp>, ruling: nat, round: nat): L.State
    decreases |ops|
  {
    if ops == [] then s else L.RuleOp(Applied(s, ops[..|ops|-1], ruling, round), ops[|ops|-1], ruling, round).state
  }

  /** Holds the resource already, or something else in its group. */
  predicate Occupied(t: L.State, r: Name, b: Name) {
    (r, b) in t.allocs || (r in t.resources && t.resources[r].group.Some? && L.HeldInGroup(t.allocs, t.resources[r].group.value, b))
  }

  function Targets(t: L.State, op: RulingOp): seq<Name> {
    if op.beneficiaries.Some? then op.beneficiaries.value else if op.claim in t.claims then t.claims[op.claim].proposal.beneficiaries else []
  }

  /** A void, or a grant to people none of whom is served already. */
  ghost predicate Acceptable(t: L.State, op: RulingOp) {
    op.op == Grant ==> op.claim in t.claims && forall b :: b in Targets(t, op) ==> !Occupied(t, t.claims[op.claim].proposal.resource, b)
  }

  /** The manager never counts on more than is free, and the claims still to be served are blocked. */
  ghost predicate Ready(t: L.State, free: map<Name, int>, rest: seq<ClaimView>) {
    && Sound(t) && DistinctIds(rest)
    && (forall r :: r in t.resources ==> RoomOn(free, r) <= L.Free(t, r))
    && (forall v :: v in rest ==> v.id in t.claims && t.claims[v.id].status == Blocked && t.claims[v.id].proposal == v.claim.proposal)
  }

  // ---------------------------------------------------------------- voids

  lemma FreeGrows(a: L.Allocs, b: L.Allocs, r: Name)
    requires b.Keys <= a.Keys
    ensures L.Used(b, r) <= L.Used(a, r)
  {
    OnHas(a.Keys, r);
    OnHas(b.Keys, r);
    hide L.On;
    CardMono(L.On(b.Keys, r), L.On(a.Keys, r));
  }

  lemma VoidTakes(t: L.State, id: nat, round: nat)
    ensures var u := L.VoidClaim(t, id, round).state;
            && u.allocs.Keys <= t.allocs.Keys && u.resources == t.resources && u.claims.Keys == t.claims.Keys
            && forall i :: i in t.claims && i != id ==> u.claims[i] == t.claims[i]
  {
    hide L.Holders, L.HolderList;
  }

  /** A void of a known claim is accepted, and leaves the claims still to be served as they were. */
  lemma VoidAccepted(t: L.State, free: map<Name, int>, rest: seq<ClaimView>, id: nat, ruling: nat, round: nat)
    requires Ready(t, free, rest) && id in t.claims && forall v :: v in rest ==> v.id != id
    ensures var st := L.RuleOp(t, VoidOf(id), ruling, round); st.out == L.Ok && Ready(st.state, free, rest) && st.state.claims.Keys == t.claims.Keys
    ensures var st := L.RuleOp(t, VoidOf(id), ruling, round); forall i :: i in t.claims && i != id ==> st.state.claims[i] == t.claims[i]
  {
    hide Sound, L.VoidClaim, L.Used;
    VoidGood(t, MD.ENCODINGS, id, round);
    RuleOpGood(t, MD.ENCODINGS, VoidOf(id), ruling, round);
    VoidTakes(t, id, round);
    var u := L.RuleOp(t, VoidOf(id), ruling, round).state;
    assert u == L.VoidClaim(t, id, round).state;
    forall r | r in u.resources ensures RoomOn(free, r) <= L.Free(u, r) { FreeGrows(t.allocs, u.allocs, r); }
  }

  // ---------------------------------------------------------------- grants

  /** A blocked claim with room: its grant is accepted if and only if none of the people it names is served already. */
  lemma GrantAcceptedIff(t: L.State, v: ClaimView, n: nat, ruling: nat, round: nat)
    requires Sound(t) && v.id in t.claims && t.claims[v.id].status == Blocked && t.claims[v.id].proposal == v.claim.proposal
    requires 0 < n <= |v.claim.proposal.beneficiaries| && v.claim.proposal.resource in t.resources && n <= L.Free(t, v.claim.proposal.resource)
    ensures var (st, p) := (L.RuleOp(t, GrantOf(v, n), ruling, round), v.claim.proposal);
            && (st.out == L.Ok <==> forall b :: b in p.beneficiaries[..n] ==> !Occupied(t, p.resource, b))
            && (st.out == L.Ok ==>
                  && st.state.allocs == L.Granting(t.allocs, v.id, p.resource, t.resources[p.resource].group, p.beneficiaries[..n]) && st.state.resources == t.resources
                  && st.state.claims == t.claims[v.id := t.claims[v.id].(status := Granted, resolved := Some(round))])
            && (st.out != L.Ok ==> st.state == t)
  {
    hide L.Used, L.Granting, L.HeldInGroup, Sound;
    var p := v.claim.proposal;
    assert p.beneficiaries[..|p.beneficiaries|] == p.beneficiaries && NoDup(p.beneficiaries[..n]);
  }

  lemma GrantTargets(t: L.State, v: ClaimView, n: nat)
    requires v.id in t.claims && t.claims[v.id].proposal == v.claim.proposal && 0 < n <= |v.claim.proposal.beneficiaries|
    ensures Targets(t, GrantOf(v, n)) == v.claim.proposal.beneficiaries[..n] && GrantOf(v, n).claim == v.id && GrantOf(v, n).op == Grant
  {
    var bens := v.claim.proposal.beneficiaries;
    assert bens[..|bens|] == bens;
  }

  lemma RoomAfterGrant(t: L.State, u: L.State, free: map<Name, int>, v: ClaimView, n: nat, r: Name)
    requires Sound(t) && r in t.resources && v.claim.proposal.resource in t.resources && RoomOn(free, r) <= L.Free(t, r) && u.resources == t.resources
    requires 0 < n <= |v.claim.proposal.beneficiaries| && v.claim.proposal.resource in free
    requires forall b :: b in v.claim.proposal.beneficiaries[..n] ==> !Occupied(t, v.claim.proposal.resource, b)
    requires u.allocs == L.Granting(t.allocs, v.id, v.claim.proposal.resource, t.resources[v.claim.proposal.resource].group, v.claim.proposal.beneficiaries[..n])
    ensures RoomOn(free[v.claim.proposal.resource := free[v.claim.proposal.resource] - n], r) <= L.Free(u, r)
  {
    hide Sound, L.Granting, L.Used, L.HeldInGroup;
    var p := v.claim.proposal;
    assert NoDup(p.beneficiaries[..n]);
    GrantingUsed(t.allocs, v.id, p.resource, t.resources[p.resource].group, p.beneficiaries[..n], r);
  }

  // ---------------------------------------------------------------- one blocked claim

  /** The op for the next claim is accepted exactly when it is acceptable, and either way the rest can be served. */
  lemma NextOp(t: L.State, d: Division, v: ClaimView, rest: seq<ClaimView>, ruling: nat, round: nat)
    requires Ready(t, d.free, [v] + rest)
    ensures var e := ShareStep(d, v);
            var (op, st) := (e.ops[|d.ops|], L.RuleOp(t, e.ops[|d.ops|], ruling, round));
            (st.out == L.Ok <==> Acceptable(t, op)) && Ready(st.state, e.free, rest)
  {
    hide Sound, L.Free, GrantOf, Occupied, L.RuleOp, RoomOn;
    var p, e := v.claim.proposal, ShareStep(d, v);
    var n := Min(|p.beneficiaries|, RoomOn(d.free, p.resource));
    ReadyParts(t, d.free, v, rest);
    if n <= 0 {
      VoidAccepted(t, d.free, rest, v.id, ruling, round);
    } else {
      RoomMeans(d.free, p.resource);
      GrantAcceptedIff(t, v, n, ruling, round);
      GrantTargets(t, v, n);
      GrantLeaves(t, L.RuleOp(t, GrantOf(v, n), ruling, round), d.free, v, n, rest, ruling, round);
    }
  }

  lemma RoomMeans(free: map<Name, int>, r: Name)
    requires RoomOn(free, r) > 0
    ensures r in free && RoomOn(free, r) == free[r]
  {}

  lemma ReadyParts(t: L.State, free: map<Name, int>, v: ClaimView, rest: seq<ClaimView>)
    requires Ready(t, free, [v] + rest)
    ensures Ready(t, free, rest) && Sound(t) && v.id in t.claims && t.claims[v.id].status == Blocked && t.claims[v.id].proposal == v.claim.proposal
    ensures v.claim.proposal.resource in t.resources && RoomOn(free, v.claim.proposal.resource) <= L.Free(t, v.claim.proposal.resource)
    ensures forall x :: x in rest ==> x.id != v.id
  {
    hide Within, Exclusive, Backed, L.Free, RoomOn;
    var all := [v] + rest;
    assert all[0] == v && all[1..] == rest && v in all;
    forall x | x in rest ensures x.id != v.id && x in all {
      var i :| 0 <= i < |rest| && rest[i] == x;
      assert all[i + 1] == x;
    }
    forall i, j | 0 <= i < j < |rest| ensures rest[i].id != rest[j].id { assert all[i + 1] == rest[i] && all[j + 1] == rest[j]; }
  }

  lemma GrantLeaves(t: L.State, st: L.Step, free: map<Name, int>, v: ClaimView, n: nat, rest: seq<ClaimView>, ruling: nat, round: nat)
    requires Ready(t, free, rest) && v.claim.proposal.resource in t.resources && v.claim.proposal.resource in free && 0 < n <= |v.claim.proposal.beneficiaries|
    requires v.id in t.claims && st == L.RuleOp(t, GrantOf(v, n), ruling, round) && forall x :: x in rest ==> x.id != v.id
    requires st.out == L.Ok ==>
               && (forall b :: b in v.claim.proposal.beneficiaries[..n] ==> !Occupied(t, v.claim.proposal.resource, b)) && st.state.resources == t.resources
               && st.state.allocs == L.Granting(t.allocs, v.id, v.claim.proposal.resource, t.resources[v.claim.proposal.resource].group, v.claim.proposal.beneficiaries[..n])
               && st.state.claims == t.claims[v.id := t.claims[v.id].(status := Granted, resolved := Some(round))]
    requires st.out != L.Ok ==> st.state == t
    ensures Ready(st.state, free[v.claim.proposal.resource := free[v.claim.proposal.resource] - n], rest)
  {
    hide Sound, L.Free, GrantOf, Occupied, L.RuleOp, L.Granting;
    RuleOpGood(t, MD.ENCODINGS, GrantOf(v, n), ruling, round);
    if st.out == L.Ok {
      forall r | r in t.resources ensures RoomOn(free[v.claim.proposal.resource := free[v.claim.proposal.resource] - n], r) <= L.Free(st.state, r) {
        RoomAfterGrant(t, st.state, free, v, n, r);
      }
    }
  }

  // ---------------------------------------------------------------- the whole ruling

  lemma AppliedMore(s: L.State, ops: seq<RulingOp>, k: nat, ruling: nat, round: nat)
    requires k < |ops|
    ensures Applied(s, ops[..k+1], ruling, round) == L.RuleOp(Applied(s, ops[..k], ruling, round), ops[k], ruling, round).state
  {
    hide L.RuleOp;
    assert ops[..k+1][..k] == ops[..k];
  }

  lemma {:induction false} AppliedThen(s: L.State, a: seq<RulingOp>, b: seq<RulingOp>, ruling: nat, round: nat)
    ensures Applied(s, a + b, ruling, round) == Applied(Applied(s, a, ruling, round), b, ruling, round)
    decreases |b|
  {
    hide L.RuleOp;
    if b == [] {
      assert a + b == a;
    } else {
      var n := |b| - 1;
      assert (a + b)[..|a+b|-1] == a + b[..n] && (a + b)[|a+b|-1] == b[n];
      AppliedThen(s, a, b[..n], ruling, round);
    }
  }

  /** The first part: voids of granted claims, each accepted. */
  lemma {:induction false} CrewVoids(s: L.State, free: map<Name, int>, queue: seq<ClaimView>, ops: seq<RulingOp>, ruling: nat, round: nat)
    requires Ready(s, free, queue) && forall o :: o in ops ==> o == VoidOf(o.claim) && o.claim in s.claims && forall v :: v in queue ==> v.id != o.claim
    ensures var t := Applied(s, ops, ruling, round); Ready(t, free, queue) && t.claims.Keys == s.claims.Keys
    ensures forall k :: 0 <= k < |ops| ==> L.RuleOp(Applied(s, ops[..k], ruling, round), ops[k], ruling, round).out == L.Ok
    decreases |ops|
  {
    hide Ready, L.RuleOp;
    if ops != [] {
      var n := |ops| - 1;
      CrewVoids(s, free, queue, ops[..n], ruling, round);
      assert ops[n] in ops;
      VoidAccepted(Applied(s, ops[..n], ruling, round), free, queue, ops[n].claim, ruling, round);
      forall k | 0 <= k < |ops| ensures L.RuleOp(Applied(s, ops[..k], ruling, round), ops[k], ruling, round).out == L.Ok {
        if k < n { assert ops[..n][..k] == ops[..k] && ops[..n][k] == ops[k]; }
      }
    }
  }

  lemma ShareMore(free: map<Name, int>, queue: seq<ClaimView>, i: nat)
    requires i < |queue|
    ensures Share(free, queue[..i+1]) == ShareStep(Share(free, queue[..i]), queue[i])
    ensures var (d, e) := (Share(free, queue[..i]), Share(free, queue[..i+1])); |d.ops| == i && |e.ops| == i + 1 && e.ops[..i] == d.ops
  {
    assert queue[..i+1][..i] == queue[..i];
    ShareLeaves(free, queue[..i], "");
  }

  lemma {:induction false} ShareInOrder(free: map<Name, int>, queue: seq<ClaimView>, i: nat)
    requires i <= |queue|
    ensures |Share(free, queue).ops| == |queue| && Share(free, queue).ops[..i] == Share(free, queue[..i]).ops
    decreases |queue| - i
  {
    ShareLeaves(free, queue, "");
    if i == |queue| {
      assert queue[..i] == queue;
    } else {
      ShareInOrder(free, queue, i + 1);
      ShareMore(free, queue, i);
      assert Share(free, queue).ops[..i+1][..i] == Share(free, queue).ops[..i];
    }
  }

  /** The second part: each op is accepted exactly when it is acceptable by then. */
  lemma {:induction false} SeatPart(t: L.State, free: map<Name, int>, queue: seq<ClaimView>, i: nat, ruling: nat, round: nat)
    requires Ready(t, free, queue) && i <= |queue|
    ensures var d := Share(free, queue[..i]); Ready(Applied(t, d.ops, ruling, round), d.free, queue[i..])
    ensures i < |queue| ==>
              var ops := Share(free, queue).ops;
              && |ops| == |queue| && var u := Applied(t, ops[..i], ruling, round);
                 (L.RuleOp(u, ops[i], ruling, round).out == L.Ok <==> Acceptable(u, ops[i]))
    decreases i
  {
    hide Ready, L.RuleOp, Acceptable, ShareStep, Share;
    if i == 0 {
      assert queue[0..] == queue;
      ShareNothing(free, queue);
    } else {
      SeatPart(t, free, queue, i - 1, ruling, round);
      ShareMore(free, queue, i - 1);
      var d, e := Share(free, queue[..i-1]), Share(free, queue[..i]);
      assert queue[i-1..] == [queue[i-1]] + queue[i..];
      NextOp(Applied(t, d.ops, ruling, round), d, queue[i-1], queue[i..], ruling, round);
      AppliedMore(t, e.ops, i - 1, ruling, round);
      assert e.ops[..i] == e.ops;
    }
    if i < |queue| {
      var d := Share(free, queue[..i]);
      ShareInOrder(free, queue, i);
      ShareInOrder(free, queue, i + 1);
      ShareMore(free, queue, i);
      assert queue[i..] == [queue[i]] + queue[i+1..];
      NextOp(Applied(t, d.ops, ruling, round), d, queue[i], queue[i+1..], ruling, round);
      assert Share(free, queue).ops[..i+1][i] == Share(free, queue).ops[i];
    }
  }

  lemma ShareNothing(free: map<Name, int>, queue: seq<ClaimView>)
    ensures Share(free, queue[..0]) == Division(free, [], {})
  {}

  lemma FiatReady(s: L.State, view: AgentView, pax: Roster)
    requires Sound(s) && Shown(view, s)
    ensures Ready(s, FreeUnits(view.resources), Queue(view, pax))
  {
    hide Sound, Shown, L.Free, SortBy, ByProtection;
    MD.ShownDistinct(s, view);
    QueueDistinct(view, pax);
    forall v | v in Queue(view, pax) ensures v.id in s.claims && s.claims[v.id].status == Blocked && s.claims[v.id].proposal == v.claim.proposal { BlockedAt(s, view, v); }
    forall r | r in s.resources ensures RoomOn(FreeUnits(view.resources), r) <= L.Free(s, r) { FreeShown(s, view, r); }
  }

  lemma FreeShown(s: L.State, view: AgentView, r: Name)
    requires Shown(view, s) && r in s.resources
    ensures RoomOn(FreeUnits(view.resources), r) == L.Free(s, r)
  {
    hide L.Free, L.IdsWith;
  }

  lemma CrewsKnown(s: L.State, view: AgentView, pax: Roster, duty: map<Name, int>, required: int)
    requires Shown(view, s)
    ensures forall o :: o in CrewPart(view.openContests, view.granted, duty, required).ops ==>
              o == VoidOf(o.claim) && o.claim in s.claims && forall v :: v in Queue(view, pax) ==> v.id != o.claim
  {
    hide Shown, CrewPart, CrewClaim, DutyIllegal, SortBy, Queue, VoidOf;
    var ops := CrewPart(view.openContests, view.granted, duty, required).ops;
    CrewPartExact(view.openContests, view.granted, duty, required);
    MD.ShownDistinct(s, view);
    QueueDistinct(view, pax);
    forall o | o in ops ensures o == VoidOf(o.claim) && o.claim in s.claims && s.claims[o.claim].status == Granted {
      assert Targeted(ops, o.claim);
      var x :| x in view.openContests && Condemns(x, view.granted, duty, required, o.claim);
      var v := FindClaim(view.granted, x.target).value;
      var k :| 0 <= k < |view.granted| && view.granted[k] == v;
      GrantedAt(s, view, k);
    }
    forall v | v in Queue(view, pax) ensures v.id in s.claims && s.claims[v.id].status == Blocked { BlockedAt(s, view, v); }
  }

  /**
   * Fiat ops applied one by one: a void is always accepted, and a grant is accepted if and only if none of the people it
   * names holds the resource, or another of its group, by then. Room is never the reason for a refusal.
   */
  lemma FiatOpAccepted(s: L.State, view: AgentView, pax: Roster, duty: map<Name, int>, required: int, k: nat, ruling: nat, round: nat)
    requires Sound(s) && Shown(view, s) && k < |FiatRuling(view, pax, duty, required).ops|
    ensures var ops := FiatRuling(view, pax, duty, required).ops;
            var t := Applied(s, ops[..k], ruling, round);
            L.RuleOp(t, ops[k], ruling, round).out == L.Ok <==> Acceptable(t, ops[k])
  {
    hide *;
    var crews, queue := CrewPart(view.openContests, view.granted, duty, required).ops, Queue(view, pax);
    var free := FreeUnits(view.resources);
    var seats := Share(free, queue).ops;
    var ops := FiatRuling(view, pax, duty, required).ops;
    TwoParts(view, pax, duty, required);
    FiatReady(s, view, pax);
    CrewsKnown(s, view, pax, duty, required);
    CrewVoids(s, free, queue, crews, ruling, round);
    if k < |crews| {
      assert ops[..k] == crews[..k] && ops[k] == crews[k] && crews[k] in crews;
      VoidsAcceptable(Applied(s, crews[..k], ruling, round), crews[k]);
    } else {
      var i := k - |crews|;
      var t := Applied(s, crews, ruling, round);
      ShareInOrder(free, queue, 0);
      SeatPart(t, free, queue, i, ruling, round);
      AppliedThen(s, crews, seats[..i], ruling, round);
      assert ops[..k] == crews + seats[..i] && ops[k] == seats[i];
    }
  }

  lemma TwoParts(view: AgentView, pax: Roster, duty: map<Name, int>, required: int)
    ensures FiatRuling(view, pax, duty, required).ops
         == CrewPart(view.openContests, view.granted, duty, required).ops + Share(FreeUnits(view.resources), Queue(view, pax)).ops
  {
    hide CrewPart, Share, Queue;
  }

  lemma VoidsAcceptable(t: L.State, op: RulingOp)
    requires op == VoidOf(op.claim)
    ensures Acceptable(t, op)
  {}

  /** What the society's loop leaves, unless a violation ends the run, is what the theorem speaks of. */
  lemma {:induction false} LoopApplies(w: World, ops: seq<RulingOp>, ruling: nat, round: nat)
    requires !ApplyOps(w, ops, ruling, round).aborted
    ensures ApplyOps(w, ops, ruling, round).world.ledger == Applied(w.ledger, ops, ruling, round)
    decreases |ops|
  {
    hide L.RuleOp, Stamp;
    if ops != [] {
      var st := L.RuleOp(w.ledger, ops[0], ruling, round);
      var x := if st.out == L.Ok then OnLedger(w, st, round) else Say(OnLedger(w, st, round), round, [OpRejected(ruling, ops[0])]);
      LoopApplies(x, ops[1..], ruling, round);
      assert ops == [ops[0]] + ops[1..];
      AppliedThen(w.ledger, [ops[0]], ops[1..], ruling, round);
      AppliedMore(w.ledger, [ops[0]], 0, ruling, round);
      assert [ops[0]][..1] == [ops[0]] && [ops[0]][..0] == [];
    }
  }
}
