/** What a scan must notice: blocked claims and challenged grants escalate in time, and a report names exactly the parties. */
module Escalation {
  import opened Order
  import opened Schemas
  import opened Graph
  import opened Detector
  import L = Ledger

  // ---------------------------------------------------------------- who is party to a conflict, on the tables alone

  /** Claim `c` waits for `r`. */
  ghost predicate WaitsFor(s: L.State, c: nat, r: Name) {
    c in s.claims && s.claims[c].status == Blocked && s.claims[c].proposal.resource == r
  }

  /** Claim `c` has been granted `r`, and somebody challenges it. */
  ghost predicate Challenged(s: L.State, xs: seq<Challenge>, c: nat, r: Name) {
    c in s.claims && s.claims[c].status == Granted && s.claims[c].proposal.resource == r && exists x :: x in xs && x.target == c
  }

  /** Somebody holds a unit of `r` under claim `c`. */
  ghost predicate HoldsUnder(s: L.State, c: nat, r: Name) {
    c in s.claims && exists k :: k in s.allocs.Keys && k.0 == r && s.allocs[k].claim == c
  }

  ghost predicate SomeoneWaits(s: L.State, r: Name) {
    exists c :: WaitsFor(s, c, r)
  }

  /** Somebody waits for `r`, or a grant of it is challenged. */
  ghost predicate InDispute(s: L.State, xs: seq<Challenge>, r: Name) {
    SomeoneWaits(s, r) || exists c :: Challenged(s, xs, c, r)
  }

  /** Waiting claims, challenged claims and, if anyone waits, the claims holding what is waited for. */
  ghost predicate IsParty(s: L.State, xs: seq<Challenge>, r: Name, c: nat) {
    WaitsFor(s, c, r) || Challenged(s, xs, c, r) || (SomeoneWaits(s, r) && HoldsUnder(s, c, r))
  }

  /** Owners of those claims, and the challengers. */
  ghost predicate TakesPart(s: L.State, xs: seq<Challenge>, r: Name, a: Name) {
    || (exists c :: IsParty(s, xs, r, c) && c in s.claims && s.claims[c].proposal.agent == a)
    || (exists x :: x in xs && x.agent == a && Challenged(s, xs, x.target, r))
  }

  // ---------------------------------------------------------------- the detector sees exactly that

  lemma SeesDispute(s: L.State, xs: seq<Challenge>, r: Name)
    ensures r in ContestedNow(s, xs) <==> InDispute(s, xs, r)
  {
    if r in ContestedNow(s, xs) {
      if c :| c in s.claims && IsBlocked(s, c) && s.claims[c].proposal.resource == r {
        assert WaitsFor(s, c, r);
      } else {
        var x :| x in xs && Live(s, x) && s.claims[x.target].proposal.resource == r;
        assert Challenged(s, xs, x.target, r);
      }
    }
    if c :| WaitsFor(s, c, r) { assert IsBlocked(s, c); }
    if c :| Challenged(s, xs, c, r) {
      var x :| x in xs && x.target == c;
      assert Live(s, x);
    }
  }

  lemma SeesWaiting(s: L.State, r: Name)
    ensures forall c :: c in BlockedOn(s, r) <==> WaitsFor(s, c, r)
    ensures BlockedOn(s, r) != {} <==> SomeoneWaits(s, r)
  {
    if BlockedOn(s, r) != {} {
      var c :| c in BlockedOn(s, r);
      assert WaitsFor(s, c, r);
    }
  }

  lemma SeesHolding(s: L.State, r: Name)
    ensures forall c :: c in ClaimsHolding(s, r) <==> HoldsUnder(s, c, r)
  {}

  lemma SeesChallenged(s: L.State, xs: seq<Challenge>, r: Name)
    ensures forall x :: x in ChallengedOn(s, xs, r) <==> x in xs && Challenged(s, xs, x.target, r)
  {}

  lemma SeesParties(s: L.State, xs: seq<Challenge>, r: Name)
    ensures forall c :: c in ContestClaims(s, xs, r) <==> IsParty(s, xs, r, c)
  {
    SeesWaiting(s, r);
    SeesHolding(s, r);
    SeesChallenged(s, xs, r);
    hide BlockedOn, ClaimsHolding, ChallengedOn, WaitsFor, HoldsUnder, SomeoneWaits;
    forall c ensures (exists x :: x in ChallengedOn(s, xs, r) && x.target == c) <==> Challenged(s, xs, c, r) {
      if Challenged(s, xs, c, r) {
        var x :| x in xs && x.target == c;
        assert x in ChallengedOn(s, xs, r);
      }
    }
  }

  lemma SeesAgents(s: L.State, xs: seq<Challenge>, r: Name)
    ensures forall a :: a in ContestAgents(s, xs, r) <==> TakesPart(s, xs, r, a)
  {
    SeesWaiting(s, r);
    SeesHolding(s, r);
    SeesChallenged(s, xs, r);
    forall a ensures a in ContestAgents(s, xs, r) <==> TakesPart(s, xs, r, a) { SeesAgent(s, xs, r, a); }
  }

  lemma SeesAgent(s: L.State, xs: seq<Challenge>, r: Name, a: Name)
    ensures a in ContestAgents(s, xs, r) <==> TakesPart(s, xs, r, a)
  {
    SeesWaiting(s, r);
    SeesHolding(s, r);
    SeesChallenged(s, xs, r);
    hide BlockedOn, ClaimsHolding, ChallengedOn, HoldsUnder, SomeoneWaits;
    if a in ContestAgents(s, xs, r) {
      if c :| c in BlockedOn(s, r) && s.claims[c].proposal.agent == a {
        assert IsParty(s, xs, r, c);
      } else if x :| x in ChallengedOn(s, xs, r) && s.claims[x.target].proposal.agent == a {
        assert IsParty(s, xs, r, x.target);
      } else if BlockedOn(s, r) != {} && a in HolderAgents(s, r) {
        var c :| c in ClaimsHolding(s, r) && c in s.claims && s.claims[c].proposal.agent == a;
        assert IsParty(s, xs, r, c);
      }
    }
    if c :| IsParty(s, xs, r, c) && c in s.claims && s.claims[c].proposal.agent == a {
      if Challenged(s, xs, c, r) {
        var x :| x in xs && x.target == c;
        assert x in ChallengedOn(s, xs, r);
      }
    }
    if x :| x in xs && x.agent == a && Challenged(s, xs, x.target, r) { assert x in ChallengedOn(s, xs, r); }
  }

  // ---------------------------------------------------------------- what a report lists

  /** A contested report of `r` on these tables: the parties' claims and agents, all of them and nobody else. */
  ghost predicate ListsParties(s: L.State, xs: seq<Challenge>, r: Name, dl: Deadlock) {
    && dl.kind == Contested && dl.resources == [r]
    && (forall c :: c in dl.claims <==> IsParty(s, xs, r, c))
    && (forall a :: a in dl.agents <==> TakesPart(s, xs, r, a))
  }

  lemma ReportLists(d: State, s: L.State, xs: seq<Challenge>, r: Name, round: nat)
    ensures ListsParties(s, xs, r, ContestedDeadlock(d, s, xs, r, round))
  {
    SeesParties(s, xs, r);
    SeesAgents(s, xs, r);
    hide ContestClaims, ContestAgents, IsParty, TakesPart;
  }

  lemma {:induction false} ReportsList(d: State, s: L.State, xs: seq<Challenge>, rs: seq<Name>, covered: set<Name>, round: nat, dl: Deadlock)
    requires dl in FireContested(d, s, xs, rs, covered, round).deadlocks
    ensures exists r :: r in rs && ListsParties(s, xs, r, dl) && dl.claims == SortedNats(ContestClaims(s, xs, r))
    decreases |rs|
  {
    hide ListsParties, ContestClaims, ContestAgents;
    var first := ContestedDeadlock(d, s, xs, rs[0], round);
    ReportLists(d, s, xs, rs[0], round);
    if rs[0] in covered || StreakIn(d.streaks, rs[0]) < d.threshold || KeyOf(first) in d.fired {
      ReportsList(d, s, xs, rs[1..], covered, round, dl);
    } else if dl != first {
      ReportsList(Report(d, KeyOf(first), first), s, xs, rs[1..], covered, round, dl);
    }
  }

  /**
   * Every contested report of a scan is of one resource in dispute, and lists exactly the waiting and the challenged
   * claims, the claims holding what is waited for, their owners, and the challengers.
   */
  lemma ContestedReportExact(d: State, s: L.State, xs: seq<Challenge>, round: nat, dl: Deadlock)
    requires dl in Scan(d, s, xs, round).deadlocks && dl.kind == Contested
    ensures exists r :: InDispute(s, xs, r) && ListsParties(s, xs, r, dl)
  {
    hide WaitEdges, Waits, Cycles, FireCycles, FireContested, ContestedNow, ListsParties;
    var cyc, now := ScanCycles(d, s, round), ContestedNow(s, xs);
    CyclesOnly(d, s, Waits(s), Cycles(WaitEdges(s, Waits(s))), round);
    ReportsList(Advance(cyc.state, now), s, xs, L.SortedNames(now), cyc.resources, round, dl);
    var r :| r in L.SortedNames(now) && ListsParties(s, xs, r, dl) && dl.claims == SortedNats(ContestClaims(s, xs, r));
    SeesDispute(s, xs, r);
  }

  // ---------------------------------------------------------------- disputes escalate in time

  /** `r` was in dispute in each of the last `n` scans, and has not been reset since the first of them. */
  ghost predicate DisputedFor(ticks: seq<Tick>, r: Name, n: nat)
    decreases |ticks|
  {
    n == 0 || (ticks != [] &&
      match ticks[|ticks|-1]
      case Reset(q) => q != r && DisputedFor(ticks[..|ticks|-1], r, n)
      case Scanned(s, xs, _) => InDispute(s, xs, r) && DisputedFor(ticks[..|ticks|-1], r, n - 1))
  }

  lemma {:induction false} StreakKeepsUp(threshold: nat, ticks: seq<Tick>, r: Name, n: nat)
    requires DisputedFor(ticks, r, n)
    ensures StreakIn(Watch(threshold, ticks).state.streaks, r) >= n
    decreases |ticks|
  {
    hide Scan, InDispute, ContestedNow;
    if n > 0 {
      var before, w := ticks[..|ticks|-1], Watch(threshold, ticks[..|ticks|-1]);
      match ticks[|ticks|-1]
      case Reset(q) => StreakKeepsUp(threshold, before, r, n);
      case Scanned(s, xs, round) =>
        StreakKeepsUp(threshold, before, r, n - 1);
        SeesDispute(s, xs, r);
        ScanFresh(w.state, s, xs, round);
    }
  }

  /** What judging the contested resources leaves on record: a report of `r`, or one made before for the very same claims. */
  lemma {:induction false} FiresAtLast(d: State, s: L.State, xs: seq<Challenge>, rs: seq<Name>, covered: set<Name>, round: nat, r: Name)
    requires r in rs && r !in covered && StreakIn(d.streaks, r) >= d.threshold
    ensures var f := FireContested(d, s, xs, rs, covered, round);
            || (exists dl :: dl in f.deadlocks && ListsParties(s, xs, r, dl))
            || ContestedKey(r, SortedNats(ContestClaims(s, xs, r))) in d.fired
    decreases |rs|
  {
    hide ContestClaims, ContestAgents, ListsParties, SortedNats, L.SortedNames;
    var first := ContestedDeadlock(d, s, xs, rs[0], round);
    ReportLists(d, s, xs, rs[0], round);
    if rs[0] in covered || StreakIn(d.streaks, rs[0]) < d.threshold || KeyOf(first) in d.fired {
      if rs[0] != r { FiresAtLast(d, s, xs, rs[1..], covered, round, r); }
    } else if rs[0] != r {
      FiresAtLast(Report(d, KeyOf(first), first), s, xs, rs[1..], covered, round, r);
    }
  }

  lemma {:induction false} CoveredByCycle(d: State, s: L.State, ws: set<Wait>, gs: seq<seq<Name>>, round: nat, r: Name)
    ensures var f := FireCycles(d, s, ws, gs, round); r in f.resources <==> exists dl :: dl in f.deadlocks && r in dl.resources
    decreases |gs|
  {
    hide GroupClaims, GroupResources, SortedNats, L.SortedNames;
    if gs != [] {
      var first := CycleDeadlock(d, s, ws, gs[0], round);
      if KeyOf(first) in d.fired {
        CoveredByCycle(d, s, ws, gs[1..], round, r);
      } else {
        CoveredByCycle(Report(d, KeyOf(first), first), s, ws, gs[1..], round, r);
        var rest := FireCycles(Report(d, KeyOf(first), first), s, ws, gs[1..], round);
        assert forall dl :: dl in [first] + rest.deadlocks <==> dl == first || dl in rest.deadlocks;
      }
    }
  }

  lemma CycleKeysOnly(d: State, s: L.State, round: nat, k: Key)
    requires k.ContestedKey?
    ensures k in ScanCycles(d, s, round).state.fired <==> k in d.fired
  {
    hide WaitEdges, Waits, Cycles, FireCycles;
    var f := ScanCycles(d, s, round);
    CyclesFresh(d, s, Waits(s), Cycles(WaitEdges(s, Waits(s))), round);
    CyclesOnly(d, s, Waits(s), Cycles(WaitEdges(s, Waits(s))), round);
    forall i | 0 <= i < |f.deadlocks| ensures Keys(f.deadlocks)[i] != k { assert f.deadlocks[i] in f.deadlocks; }
  }

  /** The claims of the parties, in the order a report lists them. */
  ghost function PartyList(s: L.State, xs: seq<Challenge>, r: Name): seq<nat> {
    SortedNats(set c | c in s.claims && IsParty(s, xs, r, c))
  }

  lemma PartiesListed(s: L.State, xs: seq<Challenge>, r: Name)
    ensures SortedNats(ContestClaims(s, xs, r)) == PartyList(s, xs, r)
    ensures forall c :: c in PartyList(s, xs, r) <==> IsParty(s, xs, r, c)
  {
    SeesParties(s, xs, r);
    hide ContestClaims;
    forall c | IsParty(s, xs, r, c) ensures c in s.claims {}
    hide IsParty;
    assert ContestClaims(s, xs, r) == set c | c in s.claims && IsParty(s, xs, r, c);
  }

  /** A cycle report of the scan takes in the resource. */
  ghost predicate InCycle(ds: seq<Deadlock>, r: Name) {
    exists dl :: dl in ds && dl.kind == Cycle && r in dl.resources
  }

  /** A contested report of the resource with these claims is among them. */
  ghost predicate OnRecord(ds: seq<Deadlock>, r: Name, claims: seq<nat>) {
    exists dl :: dl in ds && dl.kind == Contested && dl.resources != [] && dl.resources[0] == r && dl.claims == claims
  }

  lemma KeyOnRecord(threshold: nat, ticks: seq<Tick>, r: Name, claims: seq<nat>)
    ensures ContestedKey(r, claims) in Watch(threshold, ticks).state.fired <==> OnRecord(Watch(threshold, ticks).reported, r, claims)
  {
    hide Watch;
    var w := Watch(threshold, ticks);
    NeverTwice(threshold, ticks);
    if ContestedKey(r, claims) in w.state.fired { FiredIsReported(w.reported, w.state.fired, ContestedKey(r, claims)); }
    if dl :| dl in w.reported && dl.kind == Contested && dl.resources != [] && dl.resources[0] == r && dl.claims == claims {
      var i :| 0 <= i < |w.reported| && w.reported[i] == dl;
      assert Keys(w.reported)[i] == ContestedKey(r, claims);
    }
  }

  lemma ReportIsNew(d: State, s: L.State, xs: seq<Challenge>, round: nat, r: Name, dl: Deadlock)
    requires dl in Scan(d, s, xs, round).deadlocks && ListsParties(s, xs, r, dl)
    ensures !InCycle(Scan(d, s, xs, round).deadlocks, r) && ContestedKey(r, PartyList(s, xs, r)) !in d.fired
  {
    hide WaitEdges, Waits, Cycles, FireCycles, FireContested, ContestedNow, PartyList, IsParty, TakesPart, ContestClaims;
    var ws, cyc, now := Waits(s), ScanCycles(d, s, round), ContestedNow(s, xs);
    var rs, e := L.SortedNames(now), Advance(cyc.state, now);
    CyclesOnly(d, s, ws, Cycles(WaitEdges(s, ws)), round);
    CoveredByCycle(d, s, ws, Cycles(WaitEdges(s, ws)), round, r);
    FiresAtThreshold(e, s, xs, rs, cyc.resources, round, dl);
    ContestedFire(e, s, xs, rs, cyc.resources, round);
    ReportsList(e, s, xs, rs, cyc.resources, round, dl);
    PartiesListed(s, xs, r);
    ScanFresh(d, s, xs, round);
    FreshKey(d.fired, Scan(d, s, xs, round).deadlocks, Scan(d, s, xs, round).state.fired, dl);
  }

  lemma FreshKey(before: set<Key>, ds: seq<Deadlock>, after: set<Key>, dl: Deadlock)
    requires Fresh(before, ds, after) && dl in ds
    ensures dl.kind == Contested ==> dl.resources != []
    ensures KeyOf(dl) !in before
  {
    var i :| 0 <= i < |ds| && ds[i] == dl;
    assert Keys(ds)[i] == KeyOf(dl);
  }

  lemma ContestedFire(d: State, s: L.State, xs: seq<Challenge>, rs: seq<Name>, covered: set<Name>, round: nat)
    ensures forall dl :: dl in FireContested(d, s, xs, rs, covered, round).deadlocks ==> dl.kind == Contested
  {
    forall dl | dl in FireContested(d, s, xs, rs, covered, round).deadlocks ensures dl.kind == Contested {
      FiresAtThreshold(d, s, xs, rs, covered, round, dl);
    }
  }

  /**
   * A resource in dispute in each of the last `threshold` scans, blocked or challenged, without a reset in between: this
   * scan reports it, with all the parties and nobody else, unless a cycle it reports takes the resource in, or a
   * report of the resource with the very same claims is on record already. And then it does not.
   */
  lemma EscalatesInTime(threshold: nat, ticks: seq<Tick>, s: L.State, xs: seq<Challenge>, round: nat, r: Name, n: nat)
    requires n >= threshold && InDispute(s, xs, r) && DisputedFor(ticks + [Scanned(s, xs, round)], r, n)
    ensures var now := Scan(Watch(threshold, ticks).state, s, xs, round).deadlocks;
            (exists dl :: dl in now && ListsParties(s, xs, r, dl))
            <==> !InCycle(now, r) && !OnRecord(Watch(threshold, ticks).reported, r, PartyList(s, xs, r))
  {
    hide WaitEdges, Waits, Cycles, FireCycles, FireContested, ContestedNow, PartyList, ListsParties, InDispute, ContestClaims, OnRecord;
    var t := ticks + [Scanned(s, xs, round)];
    assert t[..|t|-1] == ticks;
    var d := Watch(threshold, ticks).state;
    var ws, cyc, now := Waits(s), ScanCycles(d, s, round), ContestedNow(s, xs);
    var e, f := Advance(cyc.state, now), Scan(d, s, xs, round);
    StreakKeepsUp(threshold, t, r, n);
    NeverTwice(threshold, ticks);
    SeesDispute(s, xs, r);
    ScanFresh(d, s, xs, round);
    CyclesFresh(d, s, ws, Cycles(WaitEdges(s, ws)), round);
    CyclesOnly(d, s, ws, Cycles(WaitEdges(s, ws)), round);
    CoveredByCycle(d, s, ws, Cycles(WaitEdges(s, ws)), round, r);
    KeyOnRecord(threshold, ticks, r, PartyList(s, xs, r));
    CycleKeysOnly(d, s, round, ContestedKey(r, PartyList(s, xs, r)));
    PartiesListed(s, xs, r);
    if dl :| dl in f.deadlocks && ListsParties(s, xs, r, dl) { ReportIsNew(d, s, xs, round, r, dl); }
    if !InCycle(f.deadlocks, r) && !OnRecord(Watch(threshold, ticks).reported, r, PartyList(s, xs, r)) {
      FiresAtLast(e, s, xs, L.SortedNames(now), cyc.resources, round, r);
    }
  }

  /** A grant challenged in each of those scans is in a cycle report of this one, or in a contested report on record. */
  lemma ChallengeIsReported(threshold: nat, ticks: seq<Tick>, s: L.State, xs: seq<Challenge>, round: nat, r: Name, n: nat, c: nat)
    requires n >= threshold && Challenged(s, xs, c, r) && DisputedFor(ticks + [Scanned(s, xs, round)], r, n)
    ensures || InCycle(Scan(Watch(threshold, ticks).state, s, xs, round).deadlocks, r)
            || exists dl :: dl in Watch(threshold, ticks + [Scanned(s, xs, round)]).reported && dl.kind == Contested && dl.resources != []
                            && dl.resources[0] == r && c in dl.claims
  {
    hide Scan, PartyList, TakesPart, DisputedFor;
    var t := ticks + [Scanned(s, xs, round)];
    assert t[..|t|-1] == ticks;
    EscalatesInTime(threshold, ticks, s, xs, round, r, n);
    PartiesListed(s, xs, r);
    assert IsParty(s, xs, r, c);
    hide IsParty, Challenged;
  }

  /** Nobody waits for anything. */
  ghost predicate NobodyWaits(s: L.State) {
    forall c :: c in s.claims ==> s.claims[c].status != Blocked
  }

  lemma NoWaits(s: L.State)
    requires NobodyWaits(s)
    ensures Waits(s) == {}
  {
    forall w ensures !WaitsOn(s, w) {}
    hide Waits, WaitsOn;
  }

  lemma NoCycles(e: Edges)
    requires e == map[]
    ensures Cycles(e) == []
  {
    forall g ensures g !in Cycles(e) {
      InCycles(e, g);
      hide Cycles;
    }
    NonEmptyHasElem(Cycles(e));
    hide Cycles;
  }

  lemma NoCycleWithoutWaiting(d: State, s: L.State, xs: seq<Challenge>, round: nat, dl: Deadlock)
    requires NobodyWaits(s) && dl in Scan(d, s, xs, round).deadlocks
    ensures dl.kind == Contested
  {
    hide FireContested, ContestedNow, Cycles, Waits;
    NoWaits(s);
    var e := WaitEdges(s, {});
    assert e == map[];
    NoCycles(e);
    var cyc, now := ScanCycles(d, s, round), ContestedNow(s, xs);
    ContestedFire(Advance(cyc.state, now), s, xs, L.SortedNames(now), cyc.resources, round);
  }

  /** With one claim challenged and nobody waiting, it is the only party. */
  lemma LoneParty(s: L.State, xs: seq<Challenge>, c: nat, r: Name)
    requires NobodyWaits(s) && Challenged(s, xs, c, r) && forall x :: x in xs ==> x.target == c
    ensures forall q :: InDispute(s, xs, q) <==> q == r
    ensures forall i :: IsParty(s, xs, r, i) <==> i == c
  {
    hide HoldsUnder;
  }

  /**
   * A second challenger of a grant already reported is in no report: the claims of the dispute are the same, so
   * the key has fired. Here the detector's threshold is 1 and `b` joins `a` after the first scan.
   */
  lemma SecondChallengerUnlisted(s: L.State, c: nat, a: Name, b: Name)
    requires NobodyWaits(s) && c in s.claims && s.claims[c].status == Granted && b != a && b != s.claims[c].proposal.agent
    ensures forall dl :: dl in Watch(1, [Scanned(s, [Challenge(a, c)], 1), Scanned(s, [Challenge(a, c), Challenge(b, c)], 2)]).reported
                         ==> b !in dl.agents
  {
    hide Scan, PartyList, InDispute, TakesPart, IsParty;
    var r, one, two := s.claims[c].proposal.resource, [Challenge(a, c)], [Challenge(a, c), Challenge(b, c)];
    assert one[0].target == c && two[0].target == c;
    LoneParty(s, one, c, r);
    LoneParty(s, two, c, r);
    TwoTicks(s, one, two);
    var d := Start(1);
    var f := Scan(d, s, one, 1);
    forall dl | dl in f.deadlocks ensures b !in dl.agents {
      NoCycleWithoutWaiting(d, s, one, 1, dl);
      ContestedReportExact(d, s, one, 1, dl);
      OnlyChallenger(s, c, r, a, b);
    }
    FirstFires(s, one, r);
    SameParties(s, one, two, r, c);
    NothingNew(f.state, s, two, 2, r);
  }

  /** Nobody waits, all that is in dispute is `r`, and its key has fired: the scan reports nothing. */
  lemma NothingNew(d: State, s: L.State, xs: seq<Challenge>, round: nat, r: Name)
    requires NobodyWaits(s) && ContestedKey(r, PartyList(s, xs, r)) in d.fired && forall q :: InDispute(s, xs, q) ==> q == r
    ensures Scan(d, s, xs, round).deadlocks == []
  {
    hide Scan, PartyList, InDispute;
    var ds := Scan(d, s, xs, round).deadlocks;
    if ds != [] {
      NoCycleWithoutWaiting(d, s, xs, round, ds[0]);
      ContestedReportExact(d, s, xs, round, ds[0]);
      ReportIsNew(d, s, xs, round, r, ds[0]);
    }
  }

  lemma TwoTicks(s: L.State, one: seq<Challenge>, two: seq<Challenge>)
    ensures var f := Scan(Start(1), s, one, 1);
            Watch(1, [Scanned(s, one, 1), Scanned(s, two, 2)]).reported == f.deadlocks + Scan(f.state, s, two, 2).deadlocks
  {
    hide Scan;
    var t := [Scanned(s, one, 1), Scanned(s, two, 2)];
    assert t[..1] == [Scanned(s, one, 1)] && t[..1][..0] == [];
    assert Watch(1, []) == Watched(Start(1), []);
  }

  lemma OnlyChallenger(s: L.State, c: nat, r: Name, a: Name, b: Name)
    requires b != a && c in s.claims && b != s.claims[c].proposal.agent && forall i :: IsParty(s, [Challenge(a, c)], r, i) <==> i == c
    ensures !TakesPart(s, [Challenge(a, c)], r, b)
  {
    hide IsParty, Challenged;
  }

  lemma SameParties(s: L.State, one: seq<Challenge>, two: seq<Challenge>, r: Name, c: nat)
    requires forall i :: IsParty(s, one, r, i) <==> i == c
    requires forall i :: IsParty(s, two, r, i) <==> i == c
    ensures PartyList(s, one, r) == PartyList(s, two, r)
  {
    hide IsParty, SortedNats;
    assert (set i | i in s.claims && IsParty(s, one, r, i)) == set i | i in s.claims && IsParty(s, two, r, i);
  }

  /** A first scan at threshold 1, with nobody waiting, fires the key of what is in dispute. */
  lemma FirstFires(s: L.State, xs: seq<Challenge>, r: Name)
    requires NobodyWaits(s) && InDispute(s, xs, r)
    ensures ContestedKey(r, PartyList(s, xs, r)) in Scan(Start(1), s, xs, 1).state.fired
  {
    hide Scan, PartyList, InDispute;
    var t, f := [Scanned(s, xs, 1)], Scan(Start(1), s, xs, 1);
    assert [] + t == t && t[..0] == [];
    assert Watch(1, []) == Watched(Start(1), []);
    assert DisputedFor(t, r, 1) by { assert DisputedFor(t[..0], r, 0); }
    forall dl | dl in f.deadlocks ensures dl.kind == Contested { NoCycleWithoutWaiting(Start(1), s, xs, 1, dl); }
    EscalatesInTime(1, [], s, xs, 1, r, 1);
    var dl :| dl in f.deadlocks && ListsParties(s, xs, r, dl);
    ReportKey(Start(1), s, xs, 1, r, dl);
  }

  lemma ReportKey(d: State, s: L.State, xs: seq<Challenge>, round: nat, r: Name, dl: Deadlock)
    requires dl in Scan(d, s, xs, round).deadlocks && ListsParties(s, xs, r, dl)
    ensures ContestedKey(r, PartyList(s, xs, r)) in Scan(d, s, xs, round).state.fired
  {
    hide WaitEdges, Waits, Cycles, FireCycles, FireContested, ContestedNow, PartyList, IsParty, TakesPart, ContestClaims;
    var cyc, now, f := ScanCycles(d, s, round), ContestedNow(s, xs), Scan(d, s, xs, round);
    CyclesOnly(d, s, Waits(s), Cycles(WaitEdges(s, Waits(s))), round);
    ReportsList(Advance(cyc.state, now), s, xs, L.SortedNames(now), cyc.resources, round, dl);
    PartiesListed(s, xs, r);
    ScanFresh(d, s, xs, round);
    FreshKey(d.fired, f.deadlocks, f.state.fired, dl);
  }

  // ---------------------------------------------------------------- what a cycle report lists

  /** Claim `c` waits for something agent `h` holds, and is not `h`'s own. */
  ghost predicate WaitsOnAgent(s: L.State, c: nat, h: Name) {
    && c in s.claims && s.claims[c].status == Blocked && s.claims[c].proposal.agent != h
    && exists i :: HoldsUnder(s, i, s.claims[c].proposal.resource) && s.claims[i].proposal.agent == h
  }

  lemma WaitsMeans(s: L.State, c: nat, h: Name)
    ensures WaitsOn(s, (c, h)) <==> WaitsOnAgent(s, c, h)
  {
    if c in s.claims {
      SeesHolding(s, s.claims[c].proposal.resource);
      hide ClaimsHolding, HoldsUnder;
    }
  }

  /** The claims a member of the cycle waits with, and those it holds against somebody who waits. */
  ghost predicate InCycleClaims(s: L.State, g: seq<Name>, c: nat) {
    || (exists h :: WaitsOnAgent(s, c, h) && s.claims[c].proposal.agent in g)
    || (exists i, h :: WaitsOnAgent(s, i, h) && h in g && HoldsUnder(s, c, s.claims[i].proposal.resource) && c in s.claims && s.claims[c].proposal.agent == h)
  }

  /** What a member waits for, and what it holds that somebody waits for. */
  ghost predicate InCycleResources(s: L.State, g: seq<Name>, r: Name) {
    exists i, h :: WaitsOnAgent(s, i, h) && s.claims[i].proposal.resource == r && (s.claims[i].proposal.agent in g || h in g)
  }

  lemma ListedIsInvolved(s: L.State, g: seq<Name>, c: nat)
    requires c in GroupClaims(s, Waits(s), g)
    ensures InCycleClaims(s, g, c)
  {
    hide HolderAgents, ClaimsHolding, HoldsUnder;
    var ws := Waits(s);
    var a :| a in g && c in InvolvedClaims(s, ws, a);
    if w :| w in ws && w.0 in s.claims && Claimant(s, w) == a && w.0 == c {
      WaitsMeans(s, w.0, w.1);
      assert WaitsOn(s, (w.0, w.1));
    } else {
      var w :| w in ws && w.0 in s.claims && w.1 == a && c in HolderClaims(s, Wanted(s, w), a);
      WaitsMeans(s, w.0, w.1);
      assert WaitsOn(s, (w.0, w.1));
      SeesHolding(s, Wanted(s, w));
    }
  }

  lemma InvolvedIsListed(s: L.State, g: seq<Name>, c: nat)
    requires InCycleClaims(s, g, c)
    ensures c in GroupClaims(s, Waits(s), g)
  {
    hide HolderAgents, ClaimsHolding, HoldsUnder;
    var ws := Waits(s);
    if h :| WaitsOnAgent(s, c, h) && s.claims[c].proposal.agent in g {
      WaitsMeans(s, c, h);
      assert (c, h) in ws && c in InvolvedClaims(s, ws, s.claims[c].proposal.agent);
    } else {
      var i, h :| WaitsOnAgent(s, i, h) && h in g && HoldsUnder(s, c, s.claims[i].proposal.resource) && c in s.claims && s.claims[c].proposal.agent == h;
      WaitsMeans(s, i, h);
      SeesHolding(s, s.claims[i].proposal.resource);
      assert (i, h) in ws && c in HolderClaims(s, Wanted(s, (i, h)), h) && c in InvolvedClaims(s, ws, h);
    }
  }

  lemma SeesCycleClaim(s: L.State, g: seq<Name>, c: nat)
    ensures c in GroupClaims(s, Waits(s), g) <==> InCycleClaims(s, g, c)
  {
    hide GroupClaims, InCycleClaims;
    if c in GroupClaims(s, Waits(s), g) { ListedIsInvolved(s, g, c); }
    if InCycleClaims(s, g, c) { InvolvedIsListed(s, g, c); }
  }

  lemma SeesCycleResource(s: L.State, g: seq<Name>, r: Name)
    ensures r in GroupResources(s, Waits(s), g) <==> InCycleResources(s, g, r)
  {
    var ws := Waits(s);
    if r in GroupResources(s, ws, g) {
      var a :| a in g && r in InvolvedResources(s, ws, a);
      var w :| w in ws && w.0 in s.claims && (Claimant(s, w) == a || w.1 == a) && Wanted(s, w) == r;
      WaitsMeans(s, w.0, w.1);
      assert WaitsOn(s, (w.0, w.1));
    }
    if i, h :| WaitsOnAgent(s, i, h) && s.claims[i].proposal.resource == r && (s.claims[i].proposal.agent in g || h in g) {
      WaitsMeans(s, i, h);
      var a := if h in g then h else s.claims[i].proposal.agent;
      assert (i, h) in ws && Wanted(s, (i, h)) == r && r in InvolvedResources(s, ws, a);
    }
  }

  /** A cycle report lists exactly the claims and resources its agents are involved with, as waiting or as waited on. */
  lemma CycleReportExact(d: State, s: L.State, xs: seq<Challenge>, round: nat, dl: Deadlock)
    requires dl in Scan(d, s, xs, round).deadlocks && dl.kind == Cycle
    ensures (forall c :: c in dl.claims <==> InCycleClaims(s, dl.agents, c)) && forall r :: r in dl.resources <==> InCycleResources(s, dl.agents, r)
  {
    hide WaitEdges, Waits, Cycles, FireCycles, FireContested, ContestedNow, GroupClaims, GroupResources, InCycleClaims, InCycleResources;
    var ws, cyc, now := Waits(s), ScanCycles(d, s, round), ContestedNow(s, xs);
    ContestedFire(Advance(cyc.state, now), s, xs, L.SortedNames(now), cyc.resources, round);
    CyclesOnly(d, s, ws, Cycles(WaitEdges(s, ws)), round);
    forall c ensures c in GroupClaims(s, ws, dl.agents) <==> InCycleClaims(s, dl.agents, c) { SeesCycleClaim(s, dl.agents, c); }
    forall r ensures r in GroupResources(s, ws, dl.agents) <==> InCycleResources(s, dl.agents, r) { SeesCycleResource(s, dl.agents, r); }
  }
}
