/** Whom the duty manager's rulings name: winners, losers and sources, read off the ops and the view. */
module CreditFacts {
  import opened Order
  import opened Schemas
  import opened Rounds
  import opened Scenario
  import opened Fiat
  import opened SeatRuling
  import opened SeatRulingFacts
  import L = Ledger
  import D = Detector

  // ---------------------------------------------------------------- who gets and who gives, by the ops

  /** Some op of this kind is about a claim of the agent's among `vs`. */
  ghost predicate Serves(ops: seq<RulingOp>, kind: OpKind, vs: seq<ClaimView>, a: Name) {
    exists o, v :: o in ops && v in vs && o.op == kind && o.claim == v.id && v.claim.proposal.agent == a
  }

  lemma ServesMore(ops: seq<RulingOp>, more: seq<RulingOp>, kind: OpKind, vs: seq<ClaimView>, a: Name)
    ensures Serves(ops + more, kind, vs, a) <==> Serves(ops, kind, vs, a) || Serves(more, kind, vs, a)
  {
    forall o ensures o in ops + more <==> o in ops || o in more {}
  }

  lemma ServesOne(o: RulingOp, kind: OpKind, vs: seq<ClaimView>, v: ClaimView, a: Name)
    requires v in vs && DistinctIds(vs) && o.claim == v.id
    ensures Serves([o], kind, vs, a) <==> o.op == kind && v.claim.proposal.agent == a
  {
    if u :| u in vs && u.id == v.id { SameView(vs, u, v); }
    if o.op == kind && v.claim.proposal.agent == a { assert o in [o]; }
  }

  lemma SameView(vs: seq<ClaimView>, u: ClaimView, v: ClaimView)
    requires DistinctIds(vs) && u in vs && v in vs && u.id == v.id
    ensures u == v
  {
    var i :| 0 <= i < |vs| && vs[i] == u;
    var j :| 0 <= j < |vs| && vs[j] == v;
  }

  lemma ServesNone(kind: OpKind, vs: seq<ClaimView>, a: Name)
    ensures !Serves([], kind, vs, a)
  {}

  // ---------------------------------------------------------------- seat rulings

  /** The desk's credits are those its ops have earned. */
  ghost predicate Earned(d: Desk, view: AgentView) {
    forall a :: (a in d.winners <==> Serves(d.ops, Grant, view.blocked, a)) && (a in d.losers <==> Serves(d.ops, Revoke, view.granted, a))
  }

  lemma RevokesServe(vs: seq<Candidate>, granted: seq<ClaimView>, a: Name)
    requires DistinctIds(granted)
    ensures var ops := RevokeOps(vs, D.SortedNats(ClaimsOf(vs)));
            (Serves(ops, Revoke, granted, a) <==> a in Owners(granted, ClaimsOf(vs))) && forall xs :: !Serves(ops, Grant, xs, a)
  {
    hide ClaimsOf, PidsUnder, SortBy, D.SortedNats;
    var ids := D.SortedNats(ClaimsOf(vs));
    var ops := RevokeOps(vs, ids);
    if o, v :| o in ops && v in granted && o.claim == v.id && v.claim.proposal.agent == a {
      var i :| 0 <= i < |ops| && ops[i] == o;
      assert ids[i] in ids;
      SameView(granted, FindClaim(granted, v.id).value, v);
    }
    if a in Owners(granted, ClaimsOf(vs)) {
      var id :| id in ClaimsOf(vs) && FindClaim(granted, id).Some? && FindClaim(granted, id).value.claim.proposal.agent == a;
      var i :| 0 <= i < |ids| && ids[i] == id;
      assert ops[i] in ops && ops[i] == RevokeOp(vs, id);
    }
  }

  /** What bumping and granting for one claim adds to ops and credits. */
  lemma ServeAdds(d: Desk, pax: Roster, bc: ClaimView, granted: seq<ClaimView>)
    ensures exists vs, n :: n <= |bc.claim.proposal.beneficiaries| && var e := Serve(d, pax, bc, granted);
              && e.ops == d.ops + RevokeOps(vs, D.SortedNats(ClaimsOf(vs))) + GrantPart(bc, n)
              && e.winners == d.winners + (if n > 0 then {bc.claim.proposal.agent} else {}) && e.losers == d.losers + Owners(granted, ClaimsOf(vs))
  {
    hide Victims, Usable, BumpAll, Owners, ClaimsOf, D.SortedNats, GrantOf, RevokeOps, BestRank;
    var p := bc.claim.proposal;
    var vs := if Usable(d, p.resource) >= |p.beneficiaries| then [] else Victims(d, pax, bc, granted, |p.beneficiaries| - Usable(d, p.resource));
    var n := Min(|p.beneficiaries|, Usable(Bump(d, pax, bc, granted), p.resource));
    BumpAllCredits(d, p.resource, vs);
    NoRevokes();
    NoOwners(granted);
    ServeIs(d, pax, bc, granted);
    assert d.ops + [] == d.ops && d.losers + {} == d.losers;
    assert n <= |p.beneficiaries|;
  }

  lemma NoOwners(granted: seq<ClaimView>)
    ensures Owners(granted, ClaimsOf([])) == {}
  {}

  lemma {:induction false} BumpAllCredits(d: Desk, r: Name, vs: seq<Candidate>)
    ensures var e := BumpAll(d, r, vs); e.ops == d.ops && e.winners == d.winners && e.losers == d.losers
    decreases |vs|
  {
    if vs != [] { BumpAllCredits(d, r, vs[..|vs|-1]); }
  }

  lemma ServeEarns(d: Desk, pax: Roster, bc: ClaimView, view: AgentView)
    requires Earned(d, view) && bc in view.blocked && DistinctIds(view.blocked) && DistinctIds(view.granted)
    ensures Earned(Serve(d, pax, bc, view.granted), view)
  {
    hide Serve, Owners, ClaimsOf, D.SortedNats, RevokeOps, Serves, DistinctIds;
    var e := Serve(d, pax, bc, view.granted);
    ServeAdds(d, pax, bc, view.granted);
    var vs, n :| n <= |bc.claim.proposal.beneficiaries|
                 && e.ops == d.ops + RevokeOps(vs, D.SortedNats(ClaimsOf(vs))) + GrantPart(bc, n)
                 && e.winners == d.winners + (if n > 0 then {bc.claim.proposal.agent} else {}) && e.losers == d.losers + Owners(view.granted, ClaimsOf(vs));
    var revokes, grant := RevokeOps(vs, D.SortedNats(ClaimsOf(vs))), GrantPart(bc, n);
    forall a ensures (a in e.winners <==> Serves(e.ops, Grant, view.blocked, a)) && (a in e.losers <==> Serves(e.ops, Revoke, view.granted, a)) {
      RevokesServe(vs, view.granted, a);
      GrantServes(bc, n, view, a);
      ServesMore(d.ops, revokes, Grant, view.blocked, a);
      ServesMore(d.ops + revokes, grant, Grant, view.blocked, a);
      ServesMore(d.ops, revokes, Revoke, view.granted, a);
      ServesMore(d.ops + revokes, grant, Revoke, view.granted, a);
    }
  }

  lemma GrantServes(bc: ClaimView, n: int, view: AgentView, a: Name)
    requires bc in view.blocked && DistinctIds(view.blocked) && n <= |bc.claim.proposal.beneficiaries|
    ensures Serves(GrantPart(bc, n), Grant, view.blocked, a) <==> n > 0 && bc.claim.proposal.agent == a
    ensures !Serves(GrantPart(bc, n), Revoke, view.granted, a)
  {
    if n > 0 { ServesOne(GrantOf(bc, n), Grant, view.blocked, bc, a); }
  }

  lemma {:induction false} AllEarned(d: Desk, pax: Roster, queue: seq<ClaimView>, view: AgentView)
    requires Earned(d, view) && DistinctIds(view.blocked) && DistinctIds(view.granted) && forall v :: v in queue ==> v in view.blocked
    ensures Earned(ServeAll(d, pax, queue, view.granted), view)
    decreases |queue|
  {
    hide Earned, Serve, DistinctIds;
    if queue != [] {
      AllEarned(d, pax, queue[..|queue|-1], view);
      ServeEarns(ServeAll(d, pax, queue[..|queue|-1], view.granted), pax, queue[|queue|-1], view);
    }
  }

  /** An agent challenges a claim of the deadlock. */
  ghost predicate ChallengesIn(view: AgentView, dl: Deadlock, a: Name) {
    exists x :: x in view.openContests && x.agent == a && x.target in dl.claims
  }

  lemma {:induction false} DisputedFrom(blocked: seq<ClaimView>, dl: Deadlock)
    ensures forall v :: v in Disputed(blocked, dl) <==> v in blocked && v.id in dl.claims && IsSeat(v.claim.proposal.resource)
    decreases |blocked|
  {
    hide IsSeat;
    if blocked != [] {
      var n := |blocked| - 1;
      DisputedFrom(blocked[..n], dl);
      assert blocked == blocked[..n] + [blocked[n]];
    }
  }

  /**
   * A seat ruling, for any number of claims: its winners are exactly the agents one of whose blocked claims its ops
   * grant; its losers are exactly the owners of the claims its ops revoke from, and the challengers of the deadlock's
   * claims who are not among the winners.
   */
  lemma SeatsCredit(view: AgentView, pax: Roster, dl: Deadlock)
    requires DistinctIds(view.blocked) && DistinctIds(view.granted)
    ensures var r := SeatsRuling(view, pax, dl);
            && (forall a :: a in r.winners <==> Serves(r.ops, Grant, view.blocked, a))
            && (forall a :: a in r.losers <==> Serves(r.ops, Revoke, view.granted, a) || (ChallengesIn(view, dl, a) && a !in r.winners))
  {
    hide ServeAll, Serves, SeatCitations, L.SortedNames, SortBy, Disputed, DistinctIds;
    var vs := Disputed(view.blocked, dl);
    DisputedFrom(view.blocked, dl);
    SortByElems(vs, ByProtection(pax));
    FreshEarns(view);
    AllEarned(FreshDesk(view), pax, SortBy(vs, ByProtection(pax)), view);
    hide FreshDesk, ByProtection;
  }

  lemma FreshEarns(view: AgentView)
    ensures Earned(FreshDesk(view), view)
  {}

  /** Its sources are the base one and those of the flags of the passengers the disputed claims are for. */
  lemma SeatsCite(view: AgentView, pax: Roster, dl: Deadlock)
    ensures forall c :: c in SeatsRuling(view, pax, dl).citations <==>
              || c == BASE_CITATION
              || exists v, b, f :: v in view.blocked && v.id in dl.claims && IsSeat(v.claim.proposal.resource) && b in v.claim.proposal.beneficiaries
                                   && f in FlagsOf(pax, b) && FlagCitation(f) == Some(c)
  {
    hide ServeAll, SortBy, Disputed, Dismissed, FlagCitation, FlagsOf, IsSeat, L.SortedNames;
    DisputedFrom(view.blocked, dl);
  }

  // ---------------------------------------------------------------- fiat

  /** The contest is about a granted crew claim whose crew is, or is not, short of duty time. */
  predicate AboutCrew(x: ContestView, granted: seq<ClaimView>, duty: map<Name, int>, required: int, short: bool) {
    exists v :: v in granted && x.target == v.id && CrewClaim(v) && DutyIllegal(duty, required, v) == short
  }

  /** An agent challenges such a claim. */
  ghost predicate ChallengesCrew(xs: seq<ContestView>, granted: seq<ClaimView>, duty: map<Name, int>, required: int, a: Name, short: bool) {
    exists x :: x in xs && x.agent == a && AboutCrew(x, granted, duty, required, short)
  }

  /** An agent owns a challenged crew claim whose crew is short of duty time. */
  ghost predicate OwnsIllegal(xs: seq<ContestView>, granted: seq<ClaimView>, duty: map<Name, int>, required: int, a: Name) {
    exists x :: x in xs && IllegalOf(x, granted, duty, required, a)
  }

  predicate IllegalOf(x: ContestView, granted: seq<ClaimView>, duty: map<Name, int>, required: int, a: Name) {
    exists v :: v in granted && x.target == v.id && CrewClaim(v) && DutyIllegal(duty, required, v) && v.claim.proposal.agent == a
  }

  /** What one contest adds to the credits. */
  lemma CrewStepCredits(s: Sway, x: ContestView, granted: seq<ClaimView>, duty: map<Name, int>, required: int, a: Name)
    requires DistinctIds(granted)
    ensures var t := CrewStep(s, x, granted, duty, required);
            && (a in t.winners <==> a in s.winners || (x.agent == a && AboutCrew(x, granted, duty, required, true)))
            && (a in t.losers <==> a in s.losers || (!Targeted(s.ops, x.target) && IllegalOf(x, granted, duty, required, a))
                                   || (x.agent == a && AboutCrew(x, granted, duty, required, false)))
  {
    hide CrewClaim, DutyIllegal, Targeted;
    var f := FindClaim(granted, x.target);
    forall v | v in granted && v.id == x.target ensures f.Some? && f.value == v { SameView(granted, f.value, v); }
    hide DistinctIds;
  }

  lemma {:induction false} CrewCredits(xs: seq<ContestView>, granted: seq<ClaimView>, duty: map<Name, int>, required: int, a: Name)
    requires DistinctIds(granted)
    ensures var s := CrewPart(xs, granted, duty, required);
            && (a in s.winners <==> ChallengesCrew(xs, granted, duty, required, a, true))
            && (a in s.losers <==> OwnsIllegal(xs, granted, duty, required, a) || ChallengesCrew(xs, granted, duty, required, a, false))
    decreases |xs|
  {
    hide CrewStep, AboutCrew, IllegalOf, DistinctIds, Targeted;
    if xs != [] {
      var rest, x := xs[..|xs|-1], xs[|xs|-1];
      CrewCredits(rest, granted, duty, required, a);
      CrewStepCredits(CrewPart(rest, granted, duty, required), x, granted, duty, required, a);
      assert forall y :: y in xs <==> y in rest || y == x;
      if Targeted(CrewPart(rest, granted, duty, required).ops, x.target) && IllegalOf(x, granted, duty, required, a) {
        TargetedOwner(rest, x, granted, duty, required, a);
      }
    }
  }

  /** A claim voided already had its owner blamed then. */
  lemma TargetedOwner(rest: seq<ContestView>, x: ContestView, granted: seq<ClaimView>, duty: map<Name, int>, required: int, a: Name)
    requires DistinctIds(granted) && Targeted(CrewPart(rest, granted, duty, required).ops, x.target) && IllegalOf(x, granted, duty, required, a)
    ensures OwnsIllegal(rest, granted, duty, required, a)
  {
    hide CrewPart, CrewClaim, DutyIllegal, Targeted;
    CrewPartExact(rest, granted, duty, required);
    var y :| y in rest && Condemns(y, granted, duty, required, x.target);
    var v :| v in granted && x.target == v.id && CrewClaim(v) && DutyIllegal(duty, required, v) && v.claim.proposal.agent == a;
    assert IllegalOf(y, granted, duty, required, a);
  }

  /** The seat part credits those whose blocked claims it grants, and voids claims of nobody's it would grant. */
  lemma {:induction false} ShareCredits(free: map<Name, int>, queue: seq<ClaimView>, vs: seq<ClaimView>, a: Name)
    requires DistinctIds(vs) && forall v :: v in queue ==> v in vs
    ensures var d := Share(free, queue); a in d.winners <==> Serves(d.ops, Grant, vs, a)
    decreases |queue|
  {
    hide Serves, DistinctIds, GrantOf;
    if queue == [] {
      ServesNone(Grant, vs, a);
    } else {
      var d, v := Share(free, queue[..|queue|-1]), queue[|queue|-1];
      ShareCredits(free, queue[..|queue|-1], vs, a);
      var e := ShareStep(d, v);
      var n := Min(|v.claim.proposal.beneficiaries|, RoomOn(d.free, v.claim.proposal.resource));
      var op := if n <= 0 then VoidOf(v.id) else GrantOf(v, n);
      assert e.ops == d.ops + [op];
      GrantsOrVoids(v, n);
      ServesOne(op, Grant, vs, v, a);
      ServesMore(d.ops, [op], Grant, vs, a);
    }
  }

  lemma GrantsOrVoids(v: ClaimView, n: int)
    requires n <= |v.claim.proposal.beneficiaries|
    ensures VoidOf(v.id).claim == v.id && VoidOf(v.id).op != Grant
    ensures n > 0 ==> GrantOf(v, n).claim == v.id && GrantOf(v, n).op == Grant
  {}

  lemma VoidsServeNobody(ops: seq<RulingOp>, vs: seq<ClaimView>, a: Name)
    requires VoidsOnce(ops)
    ensures !Serves(ops, Grant, vs, a)
  {}

  /**
   * A fiat: its winners are exactly the agents one of whose blocked claims it grants, and the challengers of crew claims
   * short of duty time; its losers are exactly the owners of those crew claims, and the challengers of legal ones.
   */
  lemma FiatCredits(view: AgentView, pax: Roster, duty: map<Name, int>, required: int, a: Name)
    requires DistinctIds(view.blocked) && DistinctIds(view.granted)
    ensures var r := FiatRuling(view, pax, duty, required);
            && (a in r.winners <==> Serves(r.ops, Grant, view.blocked, a) || ChallengesCrew(view.openContests, view.granted, duty, required, a, true))
            && (a in r.losers <==> OwnsIllegal(view.openContests, view.granted, duty, required, a)
                                   || ChallengesCrew(view.openContests, view.granted, duty, required, a, false))
  {
    hide CrewPart, Share, Queue, Serves, ChallengesCrew, OwnsIllegal, L.SortedNames, DistinctIds, VoidsOnce;
    var crews, queue := CrewPart(view.openContests, view.granted, duty, required), Queue(view, pax);
    CrewCredits(view.openContests, view.granted, duty, required, a);
    CrewPartExact(view.openContests, view.granted, duty, required);
    VoidsServeNobody(crews.ops, view.blocked, a);
    QueueDistinct(view, pax);
    ShareCredits(FreeUnits(view.resources), queue, view.blocked, a);
    ServesMore(crews.ops, Share(FreeUnits(view.resources), queue).ops, Grant, view.blocked, a);
  }
}
