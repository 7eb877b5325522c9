/** What the policies of the advocate, the rebooking desk, crew legality and the hotel desk ask for, and whom they challenge. */
module PolicyFacts {
  import opened Order
  import opened Schemas
  import opened Rounds
  import opened Scenario
  import RoleFacts
  import R = Rebooking
  import A = Advocate
  import O = Roles

  // ---------------------------------------------------------------- the advocate's first round

  /** Somebody of this kind in the advocate's table. */
  ghost predicate Listed(t: seq<A.Need>, kinds: set<string>, pid: Name) {
    exists n :: n in t && n.kind in kinds && n.pid == pid
  }

  lemma PidsListed(t: seq<A.Need>, kinds: set<string>)
    ensures forall pid :: pid in A.Pids(A.OfKind(t, kinds)) <==> Listed(t, kinds, pid)
  {
    var ns := A.OfKind(t, kinds);
    var ps := A.Pids(ns);
    forall pid ensures pid in ps <==> Listed(t, kinds, pid) {
      if i :| 0 <= i < |ps| && ps[i] == pid { assert ns[i] in ns; }
      if n :| n in t && n.kind in kinds && n.pid == pid {
        assert n in ns;
        var i :| 0 <= i < |ns| && ns[i] == n;
        assert ps[i] == pid;
      }
    }
  }

  /** The wheelchair passengers, each once, by id. */
  lemma WheelchairsAre(t: A.Table)
    ensures Sorted(A.Wheelchairs(t), NameLe) && NoDup(A.Wheelchairs(t)) && forall pid :: pid in A.Wheelchairs(t) <==> Listed(t, {"WCHR"}, pid)
  {
    var pids := A.Pids(A.OfKind(t, {"WCHR"}));
    PidsListed(t, {"WCHR"});
    NameOrder();
    SortBySorted(pids, NameLe);
    SortByElems(pids, NameLe);
    hide SortBy, NameLe, A.OfKind;
  }

  /** Medical couriers come before unaccompanied minors. */
  ghost predicate CouriersFirst(t: seq<A.Need>, bens: seq<Name>) {
    forall i, j :: 0 <= i < j < |bens| && Listed(t, {"MED"}, bens[j]) ==> Listed(t, {"MED"}, bens[i])
  }

  /**
   * In round 1 the advocate bids twice: for QW441 all couriers and minors, couriers first, and the first wheelchair
   * passenger by id at the end; and for QW519 all the other wheelchair passengers.
   */
  lemma FirstRoundNames(t: A.Table, view: AgentView)
    requires view.round == 1
    ensures var ps, wchr := A.Propose(t, view), A.Wheelchairs(t);
            && |ps| == 2 && ps[0].resource == SeatOf("QW441") && ps[1].resource == SeatOf("QW519")
            && var bens, n := ps[0].beneficiaries, |ps[0].beneficiaries| - 1;
               && n >= 0 && bens[n] == wchr[0] && (forall pid :: pid in bens[..n] <==> Listed(t, {"MED", "UM"}, pid)) && CouriersFirst(t, bens[..n])
               && ps[1].beneficiaries == wchr[1..]
  {
    hide A.OfKind, A.Wheelchairs, SortBy, SeatOf, Listed, CouriersFirst;
    var cast := A.OfKind(t, {"MED", "UM"});
    var pids := A.Pids(SortBy(cast, A.MedFirst));
    var bens := A.FirstWave(t);
    assert bens[..|bens|-1] == pids && bens[|bens|-1] == A.Wheelchairs(t)[0];
    CastNamed(t);
    hide A.FirstWave, A.Pids;
  }

  lemma CastNamed(t: A.Table)
    ensures var pids := A.Pids(SortBy(A.OfKind(t, {"MED", "UM"}), A.MedFirst));
            (forall pid :: pid in pids <==> Listed(t, {"MED", "UM"}, pid)) && CouriersFirst(t, pids)
  {
    hide A.OfKind, SortBy;
    var cast := A.OfKind(t, {"MED", "UM"});
    var sorted := SortBy(cast, A.MedFirst);
    var pids := A.Pids(sorted);
    PidsListed(t, {"MED", "UM"});
    SortByElems(cast, A.MedFirst);
    MedFirstOrder();
    SortBySorted(cast, A.MedFirst);
    SamePids(cast, sorted);
    forall i, j | 0 <= i < j < |pids| && Listed(t, {"MED"}, pids[j]) ensures Listed(t, {"MED"}, pids[i]) {
      assert A.MedFirst(sorted[i], sorted[j]) && sorted[i] in cast && sorted[j] in cast;
      var n :| n in t && n.kind == "MED" && n.pid == pids[j];
      if n != sorted[j] { A.PidsDiffer(t, n, sorted[j]); }
    }
  }

  lemma MedFirstOrder()
    ensures Total(A.MedFirst) && Transitive(A.MedFirst)
  {}

  lemma SamePids(a: seq<A.Need>, b: seq<A.Need>)
    requires forall n :: n in a <==> n in b
    ensures forall pid :: pid in A.Pids(a) <==> pid in A.Pids(b)
  {
    forall pid ensures pid in A.Pids(a) <==> pid in A.Pids(b) {
      if i :| 0 <= i < |a| && A.Pids(a)[i] == pid {
        assert a[i] in b;
        var j :| 0 <= j < |b| && b[j] == a[i];
        assert A.Pids(b)[j] == pid;
      }
      if j :| 0 <= j < |b| && A.Pids(b)[j] == pid {
        assert b[j] in a;
        var i :| 0 <= i < |a| && a[i] == b[j];
        assert A.Pids(a)[i] == pid;
      }
    }
  }

  // ---------------------------------------------------------------- the advocate's later rounds

  /** The first of the advocate's blocked claims that names the passenger. */
  ghost predicate FirstNaming(vs: seq<ClaimView>, pid: Name, k: nat) {
    k < |vs| && pid in vs[k].claim.proposal.beneficiaries && forall i :: 0 <= i < k ==> pid !in vs[i].claim.proposal.beneficiaries
  }

  lemma {:induction false} PendingIsFirst(vs: seq<ClaimView>, pid: Name)
    ensures var p := A.PendingFor(vs, pid);
            if p.None? then forall v :: v in vs ==> pid !in v.claim.proposal.beneficiaries
            else exists k: nat :: FirstNaming(vs, pid, k) && p.value == vs[k]
    decreases |vs|
  {
    if vs != [] {
      if pid in vs[0].claim.proposal.beneficiaries {
        assert FirstNaming(vs, pid, 0);
      } else {
        PendingIsFirst(vs[1..], pid);
        var p := A.PendingFor(vs[1..], pid);
        if p.Some? {
          var k: nat :| FirstNaming(vs[1..], pid, k) && p.value == vs[1..][k];
          assert FirstNaming(vs, pid, k + 1);
        } else {
          assert vs == [vs[0]] + vs[1..];
        }
      }
    }
  }

  /** Neither seated nor named by a claim that has been blocked for less than two rounds. */
  ghost predicate NeedsFallback(view: AgentView, n: A.Need) {
    && !RoleFacts.ShownHolding(view, "seat", n.pid)
    && forall k: nat :: FirstNaming(view.myBlocked, n.pid, k) ==> view.round - view.myBlocked[k].claim.committed >= 2
  }

  /** A seat of the flight is free, and it is not the one already fought for. */
  ghost predicate Takeable(view: AgentView, n: A.Need, flight: Name) {
    && SeatOf(flight) in view.resources && view.resources[SeatOf(flight)].free >= 1
    && forall k: nat :: FirstNaming(view.myBlocked, n.pid, k) ==> view.myBlocked[k].claim.proposal.resource != SeatOf(flight)
  }

  lemma PendingMeans(vs: seq<ClaimView>, pid: Name, k: nat)
    requires FirstNaming(vs, pid, k)
    ensures A.PendingFor(vs, pid) == Some(vs[k])
  {
    PendingIsFirst(vs, pid);
    hide A.PendingFor;
    assert vs[k] in vs;
    var j: nat :| FirstNaming(vs, pid, j) && A.PendingFor(vs, pid).value == vs[j];
    assert !(j < k) && !(k < j);
  }

  lemma NeedsMeans(view: AgentView, n: A.Need)
    ensures var p := A.PendingFor(view.myBlocked, n.pid);
            NeedsFallback(view, n) <==> n.pid !in R.Seated(view) && (p.Some? ==> view.round - p.value.claim.committed >= 2)
  {
    hide A.PendingFor, FirstNaming, R.HoldingIn, RoleFacts.ShownHolding;
    RoleFacts.HoldingMeans(view, SEAT, n.pid);
    FirstOrNone(view.myBlocked, n.pid);
  }

  lemma TakeableMeans(view: AgentView, n: A.Need, flight: Name)
    ensures var p := A.PendingFor(view.myBlocked, n.pid);
            Takeable(view, n, flight) <==> !(p.Some? && p.value.claim.proposal.resource == SeatOf(flight)) && R.FreeOn(view, SeatOf(flight)) >= 1
  {
    hide A.PendingFor, FirstNaming, SeatOf;
    FirstOrNone(view.myBlocked, n.pid);
  }

  lemma FirstOrNone(vs: seq<ClaimView>, pid: Name)
    ensures A.PendingFor(vs, pid).None? ==> forall k: nat :: !FirstNaming(vs, pid, k)
    ensures A.PendingFor(vs, pid).Some? ==> exists k: nat :: FirstNaming(vs, pid, k)
    ensures forall k: nat :: FirstNaming(vs, pid, k) ==> A.PendingFor(vs, pid) == Some(vs[k])
  {
    PendingIsFirst(vs, pid);
    hide A.PendingFor;
    forall k: nat | FirstNaming(vs, pid, k) ensures A.PendingFor(vs, pid) == Some(vs[k]) { PendingMeans(vs, pid, k); }
    hide FirstNaming;
  }

  /** The passenger's `k`-th compliant flight is the first that can be taken. */
  ghost predicate FirstTakeable(view: AgentView, n: A.Need, k: nat) {
    k < |n.sla| && Takeable(view, n, n.sla[k]) && forall i :: 0 <= i < k ==> !Takeable(view, n, n.sla[i])
  }

  lemma {:induction false} FallbackIsFirst(view: AgentView, n: A.Need, sla: seq<Name>)
    ensures var f := A.Fallback(view, sla, A.PendingFor(view.myBlocked, n.pid));
            if f.None? then forall i :: 0 <= i < |sla| ==> !Takeable(view, n, sla[i])
            else exists k :: 0 <= k < |sla| && f.value == sla[k] && Takeable(view, n, sla[k]) && forall i :: 0 <= i < k ==> !Takeable(view, n, sla[i])
    decreases |sla|
  {
    hide SeatOf, R.FreeOn, A.PendingFor, Takeable;
    if sla != [] { TakeableMeans(view, n, sla[0]); }
    if sla != [] && !Takeable(view, n, sla[0]) {
      FallbackIsFirst(view, n, sla[1..]);
      var f := A.Fallback(view, sla[1..], A.PendingFor(view.myBlocked, n.pid));
      if f.Some? {
        var k :| 0 <= k < |sla| - 1 && f.value == sla[1..][k] && Takeable(view, n, sla[1..][k]) && forall i :: 0 <= i < k ==> !Takeable(view, n, sla[1..][i]);
        forall i | 0 <= i < k + 1 ensures !Takeable(view, n, sla[i]) { if i > 0 { assert sla[i] == sla[1..][i-1]; } }
        assert f.value == sla[k + 1];
      } else {
        forall i | 0 <= i < |sla| ensures !Takeable(view, n, sla[i]) { if i > 0 { assert sla[i] == sla[1..][i-1]; } }
      }
    }
  }

  /** One seat on the first flight that can be taken, for who needs it and if there is one; nothing otherwise. */
  lemma FallbackBidIs(view: AgentView, n: A.Need)
    ensures var ps := A.FallbackBid(view, n);
            && (ps == [] <==> !NeedsFallback(view, n) || !exists k: nat :: FirstTakeable(view, n, k))
            && (ps != [] ==> |ps| == 1 && ps[0].beneficiaries == [n.pid] && exists k: nat :: FirstTakeable(view, n, k) && ps[0].resource == SeatOf(n.sla[k]))
  {
    hide SeatOf, R.FreeOn, A.PendingFor, R.Seated, Takeable, A.Fallback, NeedsFallback;
    NeedsMeans(view, n);
    FallbackIsFirst(view, n, n.sla);
    var f := A.Fallback(view, n.sla, A.PendingFor(view.myBlocked, n.pid));
    if f.Some? {
      var k :| 0 <= k < |n.sla| && f.value == n.sla[k] && Takeable(view, n, n.sla[k]) && forall i :: 0 <= i < k ==> !Takeable(view, n, n.sla[i]);
      assert FirstTakeable(view, n, k);
    }
  }

  lemma {:induction false} FallbackBidsAre(view: AgentView, ns: seq<A.Need>, p: Proposal)
    ensures p in A.FallbackBids(view, ns) <==> exists n :: n in ns && p in A.FallbackBid(view, n)
    decreases |ns|
  {
    hide A.FallbackBid;
    if ns != [] {
      FallbackBidsAre(view, ns[1..], p);
      assert ns == [ns[0]] + ns[1..];
    }
  }

  /**
   * After round 1 the advocate bids exactly for the passengers of its table who are not seated and whose claim, if they
   * have one, has been blocked for two rounds: one seat each, on the first compliant flight, other than the one fought
   * for, that has a seat.
   */
  lemma FallbackRound(t: A.Table, view: AgentView, p: Proposal)
    requires view.round != 1
    ensures p in A.Propose(t, view) <==> exists n :: n in t && NeedsFallback(view, n) && p in A.FallbackBid(view, n)
    ensures p in A.Propose(t, view) ==>
              exists n, k: nat :: n in t && NeedsFallback(view, n) && FirstTakeable(view, n, k) && p.beneficiaries == [n.pid] && p.resource == SeatOf(n.sla[k])
  {
    hide A.FallbackBid, A.FallbackBids, NeedsFallback, Takeable, SortBy, SeatOf;
    FallbackBidsAre(view, SortBy(t, A.ByPid), p);
    SortByElems(t, A.ByPid);
    forall n | n in t && p in A.FallbackBid(view, n)
      ensures NeedsFallback(view, n) && exists k: nat :: FirstTakeable(view, n, k) && p.beneficiaries == [n.pid] && p.resource == SeatOf(n.sla[k])
    {
      FallbackBidIs(view, n);
    }
  }

  // ---------------------------------------------------------------- challenges

  /** The `k`-th rival is the first that `me` does not contest yet. */
  ghost predicate FirstUncontested(view: AgentView, me: Name, rivals: seq<ClaimView>, k: nat) {
    k < |rivals| && !R.Contests(view, me, rivals[k].id) && forall i :: 0 <= i < k ==> R.Contests(view, me, rivals[i].id)
  }

  lemma {:induction false} ChallengesFirst(view: AgentView, me: Name, rivals: seq<ClaimView>)
    ensures var ps := R.ChallengeFirst(view, me, rivals);
            if ps == [] then forall i :: 0 <= i < |rivals| ==> R.Contests(view, me, rivals[i].id)
            else exists k: nat :: FirstUncontested(view, me, rivals, k) && ps == [Position(me, Block, rivals[k].id, None)]
    decreases |rivals|
  {
    hide R.Contests;
    if rivals != [] {
      if R.Contests(view, me, rivals[0].id) {
        ChallengesFirst(view, me, rivals[1..]);
        if R.ChallengeFirst(view, me, rivals[1..]) != [] {
          var k: nat :| FirstUncontested(view, me, rivals[1..], k) && R.ChallengeFirst(view, me, rivals) == [Position(me, Block, rivals[1..][k].id, None)];
          forall i | 0 <= i < k + 1 ensures R.Contests(view, me, rivals[i].id) { if i > 0 { assert rivals[i] == rivals[1..][i-1]; } }
          assert FirstUncontested(view, me, rivals, k + 1);
        } else {
          forall i | 0 <= i < |rivals| ensures R.Contests(view, me, rivals[i].id) { if i > 0 { assert rivals[i] == rivals[1..][i-1]; } }
        }
      } else {
        assert FirstUncontested(view, me, rivals, 0);
      }
    }
  }

  /** The others' granted claims on the resource that still hold something, the biggest first. */
  lemma RivalsAre(view: AgentView, r: Name, me: Name)
    ensures var vs := R.Rivals(view, r, me);
            && Sorted(vs, R.BiggerFirst)
            && forall v :: v in vs <==> v in view.granted && v.claim.proposal.resource == r && v.claim.proposal.agent != me && v.holders != []
  {
    var vs := R.RivalsIn(view.granted, r, me);
    BiggerOrder();
    SortBySorted(vs, R.BiggerFirst);
    SortByElems(vs, R.BiggerFirst);
    hide SortBy, R.BiggerFirst, R.RivalsIn;
  }

  lemma BiggerOrder()
    ensures Total(R.BiggerFirst) && Transitive(R.BiggerFirst)
  {}

  /** The agent has a blocked claim on the resource. */
  predicate WaitsOn(view: AgentView, r: Name) {
    exists v :: v in view.myBlocked && v.claim.proposal.resource == r
  }

  /** Another agent's granted claim on the resource that holds something and that `me` does not contest. */
  ghost predicate Challengeable(view: AgentView, me: Name, r: Name, v: ClaimView) {
    && v in view.granted && v.claim.proposal.resource == r && v.claim.proposal.agent != me && v.holders != []
    && forall x :: x in view.openContests && x.agent == me ==> x.target != v.id
  }

  predicate NoSmaller(v: ClaimView, u: ClaimView) {
    |v.holders| > |u.holders| || (|v.holders| == |u.holders| && v.id <= u.id)
  }

  /** One challenge, of the biggest such claim, if there is one and the agent waits for the resource. */
  ghost predicate ChallengesBiggest(view: AgentView, me: Name, r: Name, ps: seq<Position>) {
    if WaitsOn(view, r) && exists v :: Challengeable(view, me, r, v)
    then exists v :: Challengeable(view, me, r, v) && ps == [Position(me, Block, v.id, None)] && forall u :: Challengeable(view, me, r, u) ==> NoSmaller(v, u)
    else ps == []
  }

  lemma WaitsIs(view: AgentView, r: Name)
    ensures R.FirstOn(view.myBlocked, r).Some? <==> WaitsOn(view, r)
  {}

  lemma ChallengeIs(view: AgentView, me: Name, r: Name)
    ensures ChallengesBiggest(view, me, r, if R.FirstOn(view.myBlocked, r).Some? then R.ChallengeFirst(view, me, R.Rivals(view, r, me)) else [])
  {
    hide R.Rivals, R.BiggerFirst;
    var vs := R.Rivals(view, r, me);
    WaitsIs(view, r);
    ChallengesFirst(view, me, vs);
    RivalsAre(view, r, me);
    forall v ensures Challengeable(view, me, r, v) <==> v in vs && !R.Contests(view, me, v.id) {}
    hide Challengeable, R.Contests, WaitsOn;
    if k: nat :| FirstUncontested(view, me, vs, k) && R.ChallengeFirst(view, me, vs) == [Position(me, Block, vs[k].id, None)] {
      assert Challengeable(view, me, r, vs[k]);
      forall u | Challengeable(view, me, r, u) ensures NoSmaller(vs[k], u) { FirstIsBiggest(view, me, vs, k, u); }
    }
  }

  lemma FirstIsBiggest(view: AgentView, me: Name, vs: seq<ClaimView>, k: nat, u: ClaimView)
    requires Sorted(vs, R.BiggerFirst) && FirstUncontested(view, me, vs, k) && u in vs && !R.Contests(view, me, u.id)
    ensures NoSmaller(vs[k], u)
  {
    hide R.Contests;
    var j :| 0 <= j < |vs| && vs[j] == u;
    assert k <= j;
  }

  /** The advocate challenges whoever holds most of QW441, while it waits for it. */
  lemma AdvocateChallenges(t: A.Table, view: AgentView)
    ensures ChallengesBiggest(view, A.NAME, SeatOf("QW441"), A.Respond(t, view))
  {
    hide R.Rivals, SeatOf, ChallengesBiggest;
    ChallengeIs(view, A.NAME, SeatOf("QW441"));
    hide R.FirstOn;
  }

  lemma {:induction false} DefendsOwn(view: AgentView, xs: seq<ContestView>, p: Position)
    ensures p in R.Defend(view, xs) <==>
            exists x, v :: x in xs && v in view.myGranted && v.id == x.target && p == Position(R.NAME, Support, x.target, None)
    decreases |xs|
  {
    if xs != [] {
      var n := |xs| - 1;
      DefendsOwn(view, xs[..n], p);
      assert xs == xs[..n] + [xs[n]];
    }
  }

  /**
   * The rebooking desk challenges whoever holds most of QW519, while it waits for it, and then speaks up for each
   * of its granted claims that is contested, and for nothing else.
   */
  lemma RebookingAnswers(d: R.Desk, view: AgentView)
    ensures exists cs, ds :: R.Respond(d, view) == cs + ds && ChallengesBiggest(view, R.NAME, SeatOf("QW519"), cs)
                             && forall p :: p in ds <==> exists x, v :: x in view.openContests && v in view.myGranted && v.id == x.target
                                                                         && p == Position(R.NAME, Support, x.target, None)
  {
    hide R.Rivals, SeatOf, ChallengesBiggest, R.Defend;
    ChallengeIs(view, R.NAME, SeatOf("QW519"));
    var cs := if R.FirstOn(view.myBlocked, SeatOf("QW519")).Some? then R.ChallengeFirst(view, R.NAME, R.Rivals(view, SeatOf("QW519"), R.NAME)) else [];
    var ds := R.Defend(view, view.openContests);
    forall p { DefendsOwn(view, view.openContests, p); }
    hide R.FirstOn;
    assert R.Respond(d, view) == cs + ds;
  }

  predicate AdvocateWaits(v: ClaimView, r: Name) {
    v.claim.proposal.agent == "advocate" && v.claim.proposal.resource == r
  }

  ghost predicate FirstWaiting(vs: seq<ClaimView>, r: Name, k: nat) {
    k < |vs| && AdvocateWaits(vs[k], r) && forall i :: 0 <= i < k ==> !AdvocateWaits(vs[i], r)
  }

  lemma {:induction false} FirstWaits(vs: seq<ClaimView>, r: Name)
    ensures var f := R.FirstOn(Mine(vs, A.NAME), r);
            if f.None? then forall v :: v in vs ==> !AdvocateWaits(v, r) else exists k: nat :: FirstWaiting(vs, r, k) && f.value == vs[k]
    decreases |vs|
  {
    if vs != [] {
      FirstWaits(vs[1..], r);
      var rest := Mine(vs[1..], A.NAME);
      assert ([vs[0]] + rest)[1..] == rest && [] + rest == rest && vs == [vs[0]] + vs[1..];
      if AdvocateWaits(vs[0], r) {
        assert FirstWaiting(vs, r, 0);
      } else if k: nat :| FirstWaiting(vs[1..], r, k) && R.FirstOn(rest, r) == Some(vs[1..][k]) {
        WaitsLater(vs, r, k);
      }
    }
  }

  lemma WaitsLater(vs: seq<ClaimView>, r: Name, k: nat)
    requires vs != [] && !AdvocateWaits(vs[0], r) && FirstWaiting(vs[1..], r, k)
    ensures FirstWaiting(vs, r, k + 1) && vs[k + 1] == vs[1..][k]
  {
    forall i | 0 <= i < k + 1 ensures !AdvocateWaits(vs[i], r) { if i > 0 { assert vs[i] == vs[1..][i-1]; } }
  }

  /** Crew legality backs the first of the advocate's blocked claims on QW441, if there is one, once the advocate contests anything. */
  lemma CrewBacks(view: AgentView)
    ensures var r := SeatOf("QW441");
            if (exists x :: x in view.openContests && x.agent == "advocate") && exists v :: v in view.blocked && AdvocateWaits(v, r)
            then exists k: nat :: FirstWaiting(view.blocked, r, k) && O.BackAdvocate(view) == [Position("crew_legality", Support, view.blocked[k].id, None)]
            else O.BackAdvocate(view) == []
  {
    hide SeatOf, Mine;
    FirstWaits(view.blocked, SeatOf("QW441"));
  }

  // ---------------------------------------------------------------- the hotel desk

  /** Shown with neither a seat nor a room. */
  ghost predicate Stranded(view: AgentView, x: Passenger) {
    !RoleFacts.ShownHolding(view, "seat", x.id) && !RoleFacts.ShownHolding(view, "hotel", x.id)
  }

  ghost function StrandedIds(view: AgentView, pax: seq<Passenger>): set<Name> {
    set x | x in pax && Stranded(view, x) :: x.id
  }

  predicate NoLessNeedy(y: Passenger, x: Passenger) {
    Priority(y) < Priority(x) || (Priority(y) == Priority(x) && y.booking <= x.booking)
  }

  /** Some of the stranded, none of them less needy than one left out. */
  ghost predicate NeediestFirst(view: AgentView, pax: seq<Passenger>, bens: seq<Name>) {
    && Elems(bens) <= StrandedIds(view, pax)
    && forall x, b :: x in pax && Stranded(view, x) && x.id !in bens && b in bens ==> exists y :: y in pax && y.id == b && NoLessNeedy(y, x)
  }

  /**
   * From round 3 on the hotel desk bids for rooms when there is a free one and anybody is stranded: for as many as it can, the
   * best protected first and then the earlier bookings. Before, and otherwise, it does not bid.
   */
  lemma HotelBids(pax: R.Passengers, view: AgentView)
    ensures var ps, stranded := O.HotelPropose(pax, view), StrandedIds(view, pax);
            if view.round < 3 || R.FreeOn(view, HOTEL) <= 0 || stranded == {} then ps == []
            else |ps| == 1 && ps[0].resource == "hotel:block" && |ps[0].beneficiaries| == Min(R.FreeOn(view, HOTEL), |stranded|)
                 && NeediestFirst(view, pax, ps[0].beneficiaries)
  {
    hide Stranded, O.Stranded, O.NeedierFirst, SortBy, R.FreeOn, NeediestFirst, StrandedIds, NoDup, Distinct;
    SortedDistinct(pax, O.ByPax);
    var waiting := O.AllStranded(view, SortBy(pax, O.ByPax));
    SortedDistinct(waiting, O.NeedierFirst);
    var order := SortBy(waiting, O.NeedierFirst);
    NeedierOrder();
    SortBySorted(waiting, O.NeedierFirst);
    forall x { StrandedMeans(view, x); }
    StrandedCount(view, pax, order);
    var n := Min(R.FreeOn(view, HOTEL), |order|);
    if n > 0 { FirstAreNeediest(view, pax, order, n); }
  }

  lemma StrandedMeans(view: AgentView, x: Passenger)
    ensures O.Stranded(view, x) <==> Stranded(view, x)
  {
    hide R.HoldingIn, RoleFacts.ShownHolding;
    RoleFacts.HoldingMeans(view, SEAT, x.id);
    RoleFacts.HoldingMeans(view, HOTEL_GROUP, x.id);
  }

  lemma NeedierOrder()
    ensures Total(O.NeedierFirst) && Transitive(O.NeedierFirst)
  {}

  lemma StrandedCount(view: AgentView, pax: seq<Passenger>, order: seq<Passenger>)
    requires Distinct(order) && forall x :: x in order <==> x in pax && Stranded(view, x)
    ensures Elems(O.Ids(order)) == StrandedIds(view, pax) && |order| == |StrandedIds(view, pax)|
  {
    hide Stranded, Distinct;
    var ids := O.Ids(order);
    forall b ensures b in ids <==> b in StrandedIds(view, pax) {
      if i :| 0 <= i < |ids| && ids[i] == b { assert order[i] in order; }
      if x :| x in pax && Stranded(view, x) && x.id == b {
        var i :| 0 <= i < |order| && order[i] == x;
        assert ids[i] == b;
      }
    }
    hide StrandedIds;
    NoDupCard(ids);
  }

  lemma FirstAreNeediest(view: AgentView, pax: seq<Passenger>, order: seq<Passenger>, n: nat)
    requires n <= |order| && Sorted(order, O.NeedierFirst) && forall x :: x in order <==> x in pax && Stranded(view, x)
    ensures NeediestFirst(view, pax, O.Ids(order)[..n])
  {
    hide Stranded, O.NeedierFirst, NoLessNeedy, Distinct, Sorted, NoDup;
    var bens := O.Ids(order)[..n];
    forall b | b in bens ensures b in StrandedIds(view, pax) {
      var i :| 0 <= i < n && bens[i] == b;
      assert order[i] in order;
    }
    forall x, b | x in pax && Stranded(view, x) && x.id !in bens && b in bens ensures exists y :: y in pax && y.id == b && NoLessNeedy(y, x) {
      var i :| 0 <= i < n && bens[i] == b;
      var j :| 0 <= j < |order| && order[j] == x;
      assert forall m :: 0 <= m < n ==> bens[m] == order[m].id && bens[m] in bens;
      assert order[i] in order;
      InOrder(order, i, j);
    }
  }

  lemma InOrder(order: seq<Passenger>, i: nat, j: nat)
    requires i < j < |order| && Sorted(order, O.NeedierFirst)
    ensures NoLessNeedy(order[i], order[j])
  {
    assert O.NeedierFirst(order[i], order[j]);
  }
}
