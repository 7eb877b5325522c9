/** Seat rulings on any number of blocked claims, turn by turn: who may be bumped for each, who is, and what is promised them. */
module FairTurns {
  import opened Order
  import opened Schemas
  import opened LedgerFacts
  import opened Rounds
  import opened Scenario
  import opened Fiat
  import opened SeatRuling
  import opened SeatRulingFacts
  import opened ManyDisputes
  import CF = CreditFacts
  import L = Ledger
  import D = Detector

  // ---------------------------------------------------------------- sorting is stable

  ghost predicate Before<T(!new)>(s: seq<T>, a: T, b: T) {
    exists i, j :: 0 <= i < j < |s| && s[i] == a && s[j] == b
  }

  lemma BeforeTail<T(!new)>(x: T, s: seq<T>, a: T, b: T)
    requires Before(s, a, b)
    ensures Before([x] + s, a, b)
  {
    var i, j :| 0 <= i < j < |s| && s[i] == a && s[j] == b;
    var r := [x] + s;
    assert r[i + 1] == a && r[j + 1] == b;
  }

  lemma BeforeHead<T(!new)>(x: T, s: seq<T>, b: T)
    requires b in s
    ensures Before([x] + s, x, b)
  {
    var j :| 0 <= j < |s| && s[j] == b;
    var r := [x] + s;
    assert r[0] == x && r[j + 1] == b;
  }

  lemma BeforeSplit<T(!new)>(s: seq<T>, a: T, b: T)
    requires Before(s, a, b)
    ensures s != [] && ((s[0] == a && b in s[1..]) || Before(s[1..], a, b))
  {
    var i, j :| 0 <= i < j < |s| && s[i] == a && s[j] == b;
    assert s[1..][j - 1] == b;
    if i > 0 { assert s[1..][i - 1] == a; }
  }

  lemma BeforeJoined<T(!new)>(s: seq<T>, t: seq<T>, a: T, b: T)
    requires Before(s, a, b) || Before(t, a, b) || (a in s && b in t)
    ensures Before(s + t, a, b)
  {
    var r := s + t;
    if i, j :| 0 <= i < j < |s| && s[i] == a && s[j] == b {
      assert r[i] == a && r[j] == b;
    } else if i, j :| 0 <= i < j < |t| && t[i] == a && t[j] == b {
      assert r[|s| + i] == a && r[|s| + j] == b;
    } else {
      var i :| 0 <= i < |s| && s[i] == a;
      var j :| 0 <= j < |t| && t[j] == b;
      assert r[i] == a && r[|s| + j] == b;
    }
  }

  lemma InsertHas<T>(x: T, s: seq<T>, le: (T, T) -> bool, b: T)
    ensures b in Insert(x, s, le) <==> b == x || b in s
  {
    assert b in multiset(Insert(x, s, le)) <==> b in multiset{x} + multiset(s);
  }

  lemma {:induction false} InsertKeepsOrder<T(!new)>(x: T, s: seq<T>, le: (T, T) -> bool, a: T, b: T)
    requires Before(s, a, b)
    ensures Before(Insert(x, s, le), a, b)
  {
    BeforeSplit(s, a, b);
    if le(x, s[0]) {
      BeforeTail(x, s, a, b);
    } else if Before(s[1..], a, b) {
      InsertKeepsOrder(x, s[1..], le, a, b);
      BeforeTail(s[0], Insert(x, s[1..], le), a, b);
    } else {
      InsertHas(x, s[1..], le, b);
      BeforeHead(s[0], Insert(x, s[1..], le), b);
    }
  }

  lemma {:induction false} InsertBefore<T(!new)>(x: T, s: seq<T>, le: (T, T) -> bool, b: T)
    requires b in s && le(x, b)
    ensures Before(Insert(x, s, le), x, b)
  {
    if le(x, s[0]) {
      BeforeHead(x, s, b);
    } else {
      InsertBefore(x, s[1..], le, b);
      BeforeTail(s[0], Insert(x, s[1..], le), x, b);
    }
  }

  /** What may stay in order stays in order. */
  lemma {:induction false} SortIsStable<T(!new)>(s: seq<T>, le: (T, T) -> bool, a: T, b: T)
    requires Before(s, a, b) && le(a, b)
    ensures Before(SortBy(s, le), a, b)
  {
    BeforeSplit(s, a, b);
    if Before(s[1..], a, b) {
      SortIsStable(s[1..], le, a, b);
      InsertKeepsOrder(s[0], SortBy(s[1..], le), le, a, b);
    } else {
      SortByElems(s[1..], le);
      InsertBefore(a, SortBy(s[1..], le), le, b);
    }
  }

  lemma NamesDown(names: seq<Name>, a: Name, b: Name)
    requires a in names && b in names && a != b && NameLe(b, a)
    ensures Before(SortBy(names, NameGe), a, b)
  {
    hide NameLe, SortBy;
    DownOrder();
    var s := SortBy(names, NameGe);
    SortBySorted(names, NameGe);
    SortByElems(names, NameGe);
    var i: nat :| i < |s| && s[i] == a;
    var j: nat :| j < |s| && s[j] == b;
    hide Total, Transitive;
    DownApart(s, i, j);
  }

  lemma DownApart(s: seq<Name>, i: nat, j: nat)
    requires Sorted(s, NameGe) && i < |s| && j < |s| && s[i] != s[j] && NameLe(s[j], s[i])
    ensures i < j
  {
    NameOrder();
    hide NameLe, Total, Transitive;
    assert j < i ==> NameGe(s[j], s[i]);
  }

  lemma DownOrder()
    ensures Total(NameGe) && Transitive(NameGe)
  {
    NameOrder();
    hide NameLe;
    forall a, b ensures NameGe(a, b) || NameGe(b, a) {}
    forall a, b, c | NameGe(a, b) && NameGe(b, c) ensures NameGe(a, c) {}
  }

  // ---------------------------------------------------------------- what is left after some turns

  /** How many of the bumped are promised a seat on the resource. */
  function Promised(vs: seq<Candidate>, r: Name): nat
    decreases |vs|
  {
    if vs == [] then 0 else Promised(vs[..|vs|-1], r) + if vs[|vs|-1].alt == r then 1 else 0
  }

  /** Free seats shown, and those won back, less those given and those promised, in the turns so far. */
  function Room(view: AgentView, before: seq<Turn>, r: Name): int
    decreases |before|
  {
    if before == [] then (if r in view.resources && IsSeat(r) then view.resources[r].free else 0)
    else
      var x := before[|before|-1];
      Room(view, before[..|before|-1], r) + (if ManyDisputes.Flight(x) == r then |x.victims| - |Seats(x)| else 0) - Promised(x.victims, r)
  }

  /** The first of the legal flights, the contested one apart, with room left: where who is bumped is to go. */
  ghost predicate Refuge(view: AgentView, before: seq<Turn>, legal: seq<Name>, contested: Name, alt: Name) {
    exists i: nat :: RefugeAt(view, before, legal, contested, alt, i)
  }

  ghost predicate RefugeAt(view: AgentView, before: seq<Turn>, legal: seq<Name>, contested: Name, alt: Name, i: nat) {
    i < |legal| && alt == SeatOf(legal[i]) && !Full(view, before, contested, legal[i]) && forall j: nat :: j < i ==> Full(view, before, contested, legal[j])
  }

  predicate Full(view: AgentView, before: seq<Turn>, contested: Name, flight: Name) {
    SeatOf(flight) == contested || Room(view, before, SeatOf(flight)) < 1
  }

  /**
   * Who may be bumped for a claim when its turn comes: a holder of the flight's seats under the `k`-th granted claim, if
   * that is another agent's and revocable; less protected than the claim's best-protected person; and with a refuge.
   */
  ghost predicate MayBump(view: AgentView, pax: Roster, before: seq<Turn>, bc: ClaimView, k: nat, c: Candidate) {
    && k < |view.granted|
    && var (p, gc) := (bc.claim.proposal, view.granted[k]);
       && gc.claim.proposal.resource == p.resource && gc.claim.proposal.agent != p.agent && gc.claim.proposal.revocable
       && c.pid in gc.holders && c.claim == gc.id && c.rank == Rank(pax, c.pid) && c.rank > BestRank(pax, p.beneficiaries)
       && Refuge(view, before, LegalFlights(pax, c.pid), p.resource, c.alt)
  }

  /** Less protected, or as much but under an earlier claim, or under the same but later by name. */
  predicate GoesFirst(j: nat, v: Candidate, k: nat, c: Candidate) {
    v.rank > c.rank || (v.rank == c.rank && (j < k || (j == k && NameLe(c.pid, v.pid))))
  }

  /** The victims are the first of those who may be bumped, as many as the claim is short of seats. */
  ghost predicate FairVictims(view: AgentView, pax: Roster, before: seq<Turn>, bc: ClaimView, vs: seq<Candidate>) {
    var short := |bc.claim.proposal.beneficiaries| - Room(view, before, bc.claim.proposal.resource);
    && DistinctPids(vs) && (vs != [] ==> |vs| <= short)
    && (forall v :: v in vs ==> exists j: nat :: MayBump(view, pax, before, bc, j, v))
    && (forall k: nat, c :: MayBump(view, pax, before, bc, k, c) && c !in vs ==> |vs| >= short)
    && (forall j: nat, v, k: nat, c :: MayBump(view, pax, before, bc, j, v) && v in vs && MayBump(view, pax, before, bc, k, c) && c !in vs
                                       ==> GoesFirst(j, v, k, c))
  }

  /** And the claim gets what there is then. */
  ghost predicate FairTurn(view: AgentView, pax: Roster, before: seq<Turn>, x: Turn) {
    && FairVictims(view, pax, before, x.bc, x.victims)
    && x.n == Min(|x.bc.claim.proposal.beneficiaries|, Room(view, before, ManyDisputes.Flight(x)) + |x.victims|)
  }

  ghost predicate AllFair(view: AgentView, pax: Roster, xs: seq<Turn>) {
    forall k :: 0 <= k < |xs| ==> FairTurn(view, pax, xs[..k], xs[k])
  }

  lemma NoneFair(view: AgentView, pax: Roster)
    ensures AllFair(view, pax, [])
  {}

  // ---------------------------------------------------------------- the desk's tally

  lemma {:induction false} ReservedAfterBumps(d: Desk, r: Name, vs: seq<Candidate>, q: Name)
    ensures Reserved(BumpAll(d, r, vs), q) == Reserved(d, q) + Promised(vs, q)
    decreases |vs|
  {
    if vs != [] { ReservedAfterBumps(d, r, vs[..|vs|-1], q); }
  }

  lemma ReservedAfterTurn(d: Desk, pax: Roster, bc: ClaimView, granted: seq<ClaimView>, q: Name)
    ensures Reserved(Serve(d, pax, bc, granted), q) == Reserved(d, q) + Promised(TurnOf(d, pax, bc, granted).victims, q)
  {
    hide Victims, RevokeOps, Owners, BumpAll, ClaimsOf, GrantOf, D.SortedNats;
    ReservedAfterBumps(d, bc.claim.proposal.resource, Chosen(d, pax, bc, granted), q);
    assert Promised([], q) == 0;
  }

  lemma {:induction false} TallyIsRoom(view: AgentView, pax: Roster, queue: seq<ClaimView>, r: Name)
    ensures Usable(ServeAll(FreshDesk(view), pax, queue, view.granted), r) == Room(view, Turns(FreshDesk(view), pax, queue, view.granted), r)
    decreases |queue|
  {
    hide Serve, TurnOf, IsSeat;
    if queue != [] {
      var before, bc := queue[..|queue|-1], queue[|queue|-1];
      TallyIsRoom(view, pax, before, r);
      var d, xs := ServeAll(FreshDesk(view), pax, before, view.granted), Turns(FreshDesk(view), pax, queue, view.granted);
      RoomAfterTurn(d, pax, bc, view.granted, r);
      ReservedAfterTurn(d, pax, bc, view.granted, r);
      assert xs[..|xs|-1] == Turns(FreshDesk(view), pax, before, view.granted);
    }
  }

  /** The desk's tally is what is left. */
  ghost predicate Agrees(view: AgentView, before: seq<Turn>, d: Desk) {
    forall r :: Usable(d, r) == Room(view, before, r)
  }

  // ---------------------------------------------------------------- candidates

  lemma {:induction false} RefugeIsFirst(view: AgentView, before: seq<Turn>, d: Desk, legal: seq<Name>, contested: Name, alt: Name)
    requires Agrees(view, before, d)
    ensures FirstAlternative(d, legal, contested) == Some(alt) <==> Refuge(view, before, legal, contested, alt)
    decreases |legal|
  {
    hide SeatOf, Usable, Room;
    if legal != [] {
      RefugeIsFirst(view, before, d, legal[1..], contested, alt);
      RefugeSplit(view, before, legal, contested, alt);
    }
  }

  lemma RefugeSplit(view: AgentView, before: seq<Turn>, legal: seq<Name>, contested: Name, alt: Name)
    requires legal != []
    ensures Refuge(view, before, legal, contested, alt) <==>
            if !Full(view, before, contested, legal[0]) then alt == SeatOf(legal[0]) else Refuge(view, before, legal[1..], contested, alt)
  {
    hide SeatOf, Full;
    if i: nat :| RefugeAt(view, before, legal, contested, alt, i) { RefugeEarlier(view, before, legal, contested, alt, i); }
    if Full(view, before, contested, legal[0]) {
      if i: nat :| RefugeAt(view, before, legal[1..], contested, alt, i) { RefugeLater(view, before, legal, contested, alt, i); }
    } else if alt == SeatOf(legal[0]) {
      assert RefugeAt(view, before, legal, contested, alt, 0);
    }
  }

  lemma RefugeEarlier(view: AgentView, before: seq<Turn>, legal: seq<Name>, contested: Name, alt: Name, i: nat)
    requires RefugeAt(view, before, legal, contested, alt, i)
    ensures if !Full(view, before, contested, legal[0]) then alt == SeatOf(legal[0]) else i > 0 && RefugeAt(view, before, legal[1..], contested, alt, i - 1)
  {
    hide SeatOf, Full;
    var rest := legal[1..];
    forall j: nat | j < |rest| ensures rest[j] == legal[j + 1] {}
    if i > 0 && Full(view, before, contested, legal[0]) {
      forall j: nat | j < i - 1 ensures Full(view, before, contested, rest[j]) { assert rest[j] == legal[j + 1]; }
    }
  }

  lemma RefugeLater(view: AgentView, before: seq<Turn>, legal: seq<Name>, contested: Name, alt: Name, i: nat)
    requires legal != [] && Full(view, before, contested, legal[0]) && RefugeAt(view, before, legal[1..], contested, alt, i)
    ensures RefugeAt(view, before, legal, contested, alt, i + 1)
  {
    hide SeatOf, Full;
    assert legal[1..][i] == legal[i + 1];
    forall j: nat | j < i + 1 ensures Full(view, before, contested, legal[j]) { if j > 0 { assert legal[1..][j - 1] == legal[j]; } }
  }

  /** Listed by the desk from the `k`-th granted claim. */
  predicate ListedFrom(d: Desk, pax: Roster, bc: ClaimView, granted: seq<ClaimView>, k: nat, c: Candidate) {
    k < |granted| && Bumpable(bc, granted[k]) && c.pid in granted[k].holders && Weighed(d, pax, bc, granted[k], c)
  }

  lemma ListedMeans(view: AgentView, pax: Roster, before: seq<Turn>, d: Desk, bc: ClaimView, k: nat, c: Candidate)
    requires Agrees(view, before, d)
    ensures ListedFrom(d, pax, bc, view.granted, k, c) <==> MayBump(view, pax, before, bc, k, c)
  {
    hide Rank, BestRank, Agrees, Refuge, FirstAlternative, LegalFlights;
    RefugeIsFirst(view, before, d, LegalFlights(pax, c.pid), bc.claim.proposal.resource, c.alt);
  }

  lemma {:induction false} ConsideredInOrder(d: Desk, pax: Roster, bc: ClaimView, gc: ClaimView, pids: seq<Name>, c: Candidate, v: Candidate)
    requires Before(pids, c.pid, v.pid) && Weighed(d, pax, bc, gc, c) && Weighed(d, pax, bc, gc, v)
    ensures Before(ConsiderAll(d, pax, bc, gc, pids), c, v)
    decreases |pids|
  {
    hide Consider, Weighed;
    var i, j :| 0 <= i < j < |pids| && pids[i] == c.pid && pids[j] == v.pid;
    var n := |pids| - 1;
    var rest := pids[..n];
    assert rest[i] == c.pid;
    if j < n {
      assert rest[j] == v.pid;
      ConsideredInOrder(d, pax, bc, gc, rest, c, v);
    } else {
      ConsiderAllIs(d, pax, bc, gc, rest);
      ConsiderIs(d, pax, bc, gc, v.pid, v);
    }
    BeforeJoined(ConsiderAll(d, pax, bc, gc, rest), Consider(d, pax, bc, gc, pids[n]), c, v);
  }

  lemma FromOneClaim(d: Desk, pax: Roster, bc: ClaimView, gc: ClaimView, c: Candidate, v: Candidate)
    requires c.pid in gc.holders && v.pid in gc.holders && c.pid != v.pid && NameLe(v.pid, c.pid)
    requires Bumpable(bc, gc) && Weighed(d, pax, bc, gc, c) && Weighed(d, pax, bc, gc, v)
    ensures Before(Listing(d, pax, bc, gc), c, v)
  {
    hide Bumpable, Weighed, ConsiderAll, SortBy, NameLe, Before;
    NamesDown(gc.holders, c.pid, v.pid);
    ConsideredInOrder(d, pax, bc, gc, SortBy(gc.holders, NameGe), c, v);
  }

  lemma SeparateRest(bc: ClaimView, granted: seq<ClaimView>)
    requires Separate(bc, granted) && granted != []
    ensures Separate(bc, granted[..|granted|-1])
  {
    hide Bumpable, NoDup;
    var rest := granted[..|granted|-1];
    assert forall i :: 0 <= i < |rest| ==> rest[i] == granted[i];
  }

  lemma GatherSplit(d: Desk, pax: Roster, bc: ClaimView, granted: seq<ClaimView>)
    requires granted != []
    ensures var n := |granted| - 1; Gather(d, pax, bc, granted) == Gather(d, pax, bc, granted[..n]) + Listing(d, pax, bc, granted[n])
  {
    hide Bumpable, ConsiderAll, SortBy;
  }

  /** What one granted claim adds to the list. */
  function Listing(d: Desk, pax: Roster, bc: ClaimView, gc: ClaimView): seq<Candidate> {
    if Bumpable(bc, gc) then ConsiderAll(d, pax, bc, gc, SortBy(gc.holders, NameGe)) else []
  }

  lemma InListing(d: Desk, pax: Roster, bc: ClaimView, granted: seq<ClaimView>, k: nat, c: Candidate)
    requires Separate(bc, granted) && ListedFrom(d, pax, bc, granted, k, c)
    ensures c in Gather(d, pax, bc, granted) && c in Listing(d, pax, bc, granted[k])
  {
    hide Weighed, Bumpable, ConsiderAll, SortBy, Separate, Gather;
    var gc := granted[k];
    GatherIs(d, pax, bc, granted);
    assert gc in granted;
    SortByElems(gc.holders, NameGe);
    ConsiderAllIs(d, pax, bc, gc, SortBy(gc.holders, NameGe));
  }

  /** The desk lists claim by claim, and within a claim from the last name down. */
  lemma {:induction false} ListedInOrder(d: Desk, pax: Roster, bc: ClaimView, granted: seq<ClaimView>, j: nat, v: Candidate, k: nat, c: Candidate)
    requires Separate(bc, granted) && ListedFrom(d, pax, bc, granted, j, v) && ListedFrom(d, pax, bc, granted, k, c)
    requires k < j || (k == j && c.pid != v.pid && NameLe(v.pid, c.pid))
    ensures Before(Gather(d, pax, bc, granted), c, v)
    decreases |granted|
  {
    hide Weighed, Bumpable, Listing, ConsiderAll, Gather, Separate, NameLe, Before;
    var n := |granted| - 1;
    var rest := granted[..n];
    SeparateRest(bc, granted);
    GatherSplit(d, pax, bc, granted);
    if j < n {
      ListedInOrder(d, pax, bc, rest, j, v, k, c);
    } else if k == n {
      FromOneClaim(d, pax, bc, granted[n], c, v);
    } else {
      InListing(d, pax, bc, rest, k, c);
      InListing(d, pax, bc, granted, n, v);
    }
    BeforeJoined(Gather(d, pax, bc, rest), Listing(d, pax, bc, granted[n]), c, v);
  }

  lemma OfferedListed(d: Desk, pax: Roster, bc: ClaimView, granted: seq<ClaimView>, c: Candidate)
    ensures Offered(d, pax, bc, granted, c) <==> exists k: nat :: ListedFrom(d, pax, bc, granted, k, c)
  {
    hide Weighed, Bumpable;
    if gc :| gc in granted && Bumpable(bc, gc) && c.pid in gc.holders && Weighed(d, pax, bc, gc, c) {
      var k: nat :| k < |granted| && granted[k] == gc;
      assert ListedFrom(d, pax, bc, granted, k, c);
    }
  }

  // ---------------------------------------------------------------- who is picked

  /** In a list without repeats, what is among the first is not after what is not. */
  lemma PrefixNotAfter(s: seq<Candidate>, n: nat, v: Candidate, c: Candidate)
    requires n <= |s| && NoDup(s) && v in s[..n] && c in s && c !in s[..n]
    ensures !Before(s, c, v)
  {
    var k :| 0 <= k < n && s[..n][k] == v;
    forall i, j | 0 <= i < j < |s| ensures !(s[i] == c && s[j] == v) {
      if i < n { assert s[..n][i] == s[i]; }
    }
  }

  lemma PickedFirst(d: Desk, pax: Roster, bc: ClaimView, granted: seq<ClaimView>, n: nat, j: nat, v: Candidate, k: nat, c: Candidate)
    requires Separate(bc, granted) && ListedFrom(d, pax, bc, granted, j, v) && ListedFrom(d, pax, bc, granted, k, c)
    requires var s := SortBy(Gather(d, pax, bc, granted), LessProtectedFirst); n <= |s| && v in s[..n] && c !in s[..n]
    ensures GoesFirst(j, v, k, c)
  {
    hide Weighed, Bumpable, NameLe, Gather, SortBy, ListedFrom, Before, Separate;
    var cs := Gather(d, pax, bc, granted);
    var s := SortBy(cs, LessProtectedFirst);
    GatherIs(d, pax, bc, granted);
    OfferedListed(d, pax, bc, granted, v);
    OfferedListed(d, pax, bc, granted, c);
    SortByElems(cs, LessProtectedFirst);
    ByRankOrder();
    SortBySorted(cs, LessProtectedFirst);
    PidsNoDup(cs);
    PrefixNotAfter(s, n, v, c);
    RankedFirst(s, n, v, c);
    NameOrder();
    if v.rank == c.rank {
      SamePid(cs, v, c);
      if k < j || (k == j && NameLe(v.pid, c.pid)) {
        ListedInOrder(d, pax, bc, granted, j, v, k, c);
        SortIsStable(cs, LessProtectedFirst, c, v);
        assert false;
      }
    }
  }

  lemma RankedFirst(s: seq<Candidate>, n: nat, v: Candidate, c: Candidate)
    requires n <= |s| && Sorted(s, LessProtectedFirst) && v in s[..n] && c in s && c !in s[..n]
    ensures v.rank >= c.rank
  {
    var i :| 0 <= i < n && s[..n][i] == v;
    var j :| 0 <= j < |s| && s[j] == c;
    assert forall k :: 0 <= k < n ==> s[k] in s[..n];
    assert LessProtectedFirst(s[i], s[j]);
  }

  lemma PidsNoDup(cs: seq<Candidate>)
    requires DistinctPids(cs)
    ensures NoDup(cs)
  {}

  lemma SamePid(cs: seq<Candidate>, v: Candidate, c: Candidate)
    requires DistinctPids(cs) && v in cs && c in cs && v != c
    ensures v.pid != c.pid
  {
    var i :| 0 <= i < |cs| && cs[i] == v;
    var j :| 0 <= j < |cs| && cs[j] == c;
  }

  // ---------------------------------------------------------------- every turn is fair

  lemma ChosenListed(view: AgentView, pax: Roster, d: Desk, bc: ClaimView)
    requires Separate(bc, view.granted)
    ensures var vs, short := Chosen(d, pax, bc, view.granted), |bc.claim.proposal.beneficiaries| - Usable(d, bc.claim.proposal.resource);
            && DistinctPids(vs) && (vs != [] ==> |vs| <= short)
            && (forall v :: v in vs ==> exists j: nat :: ListedFrom(d, pax, bc, view.granted, j, v))
            && (forall k: nat, c :: ListedFrom(d, pax, bc, view.granted, k, c) && c !in vs ==> |vs| >= short)
  {
    hide Usable, Gather, SortBy, Separate, ListedFrom, Offered, DistinctPids;
    var cs := Gather(d, pax, bc, view.granted);
    var s := SortBy(cs, LessProtectedFirst);
    GatherIs(d, pax, bc, view.granted);
    forall c { OfferedListed(d, pax, bc, view.granted, c); }
    SortByElems(cs, LessProtectedFirst);
    DistinctSorted(cs, s);
    DistinctPrefix(s);
    var vs := Chosen(d, pax, bc, view.granted);
    forall v | v in vs ensures exists j: nat :: ListedFrom(d, pax, bc, view.granted, j, v) { assert v in s; }
    forall k: nat, c | ListedFrom(d, pax, bc, view.granted, k, c) && c !in vs
      ensures |vs| >= |bc.claim.proposal.beneficiaries| - Usable(d, bc.claim.proposal.resource)
    {
      assert Offered(d, pax, bc, view.granted, c) && c in s;
      AllOrAsMany(s, |vs|, c);
    }
  }

  lemma AllOrAsMany(s: seq<Candidate>, n: nat, c: Candidate)
    requires n <= |s| && c in s && c !in s[..n]
    ensures n < |s|
  {
    assert s[..|s|] == s;
  }

  lemma ChosenFirst(view: AgentView, pax: Roster, d: Desk, bc: ClaimView, j: nat, v: Candidate, k: nat, c: Candidate)
    requires Separate(bc, view.granted) && ListedFrom(d, pax, bc, view.granted, j, v) && ListedFrom(d, pax, bc, view.granted, k, c)
    requires v in Chosen(d, pax, bc, view.granted) && c !in Chosen(d, pax, bc, view.granted)
    ensures GoesFirst(j, v, k, c)
  {
    hide Usable, Gather, SortBy, Separate, ListedFrom, GoesFirst;
    var s := SortBy(Gather(d, pax, bc, view.granted), LessProtectedFirst);
    PickedFirst(d, pax, bc, view.granted, Min(|bc.claim.proposal.beneficiaries| - Usable(d, bc.claim.proposal.resource), |s|), j, v, k, c);
  }

  lemma TurnIsFair(view: AgentView, pax: Roster, before: seq<Turn>, d: Desk, bc: ClaimView)
    requires Separate(bc, view.granted) && Agrees(view, before, d)
    ensures FairTurn(view, pax, before, TurnOf(d, pax, bc, view.granted))
  {
    hide Usable, Room, Separate, ListedFrom, Chosen, MayBump, DistinctPids, Bump, GoesFirst;
    var vs, r := Chosen(d, pax, bc, view.granted), bc.claim.proposal.resource;
    ChosenListed(view, pax, d, bc);
    forall k: nat, c { ListedMeans(view, pax, before, d, bc, k, c); }
    forall j: nat, v, k: nat, c | MayBump(view, pax, before, bc, j, v) && v in vs && MayBump(view, pax, before, bc, k, c) && c !in vs
      ensures GoesFirst(j, v, k, c)
    {
      ChosenFirst(view, pax, d, bc, j, v, k, c);
    }
    assert Usable(d, r) == Room(view, before, r);
    hide Agrees;
    TurnFrees(view, pax, d, bc);
  }

  lemma TurnFrees(view: AgentView, pax: Roster, d: Desk, bc: ClaimView)
    requires Separate(bc, view.granted)
    ensures var r := bc.claim.proposal.resource; Usable(Bump(d, pax, bc, view.granted), r) == Usable(d, r) + |Chosen(d, pax, bc, view.granted)|
  {
    hide Usable, Gather, Chosen, Separate, ListedFrom, Weighed, Bump;
    var vs := Chosen(d, pax, bc, view.granted);
    ChosenListed(view, pax, d, bc);
    forall v | v in vs ensures v.alt != bc.claim.proposal.resource {
      var j: nat :| ListedFrom(d, pax, bc, view.granted, j, v);
      ListedElsewhere(d, pax, bc, view.granted, j, v);
    }
    ChosenIs(d, pax, bc, view.granted);
    BumpIs(d, pax, bc, view.granted, vs);
    BumpAllFrees(d, bc.claim.proposal.resource, vs);
  }

  lemma ListedElsewhere(d: Desk, pax: Roster, bc: ClaimView, granted: seq<ClaimView>, j: nat, v: Candidate)
    requires ListedFrom(d, pax, bc, granted, j, v)
    ensures v.alt != bc.claim.proposal.resource
  {
    hide Weighed;
    WeighedAlt(d, pax, bc, granted[j], v);
  }

  lemma {:induction false} TurnsAreFair(s: L.State, view: AgentView, pax: Roster, queue: seq<ClaimView>)
    requires Sound(s) && Shown(view, s)
    ensures AllFair(view, pax, Turns(FreshDesk(view), pax, queue, view.granted))
    decreases |queue|
  {
    hide AllFair, TurnOf, ServeAll, Separate, FairTurn, Usable, Room, Sound, Shown, FreshDesk;
    if queue != [] {
      var before, xs := queue[..|queue|-1], Turns(FreshDesk(view), pax, queue, view.granted);
      var ys, d := Turns(FreshDesk(view), pax, before, view.granted), ServeAll(FreshDesk(view), pax, before, view.granted);
      TurnsAreFair(s, view, pax, before);
      ShownSeparate(s, view, queue[|queue|-1]);
      forall r ensures Usable(d, r) == Room(view, ys, r) { TallyIsRoom(view, pax, before, r); }
      assert Agrees(view, ys, d);
      TurnIsFair(view, pax, ys, d, queue[|queue|-1]);
      OneMoreFair(view, pax, ys, TurnOf(d, pax, queue[|queue|-1], view.granted));
    } else {
      NoneFair(view, pax);
    }
  }

  lemma OneMoreFair(view: AgentView, pax: Roster, ys: seq<Turn>, x: Turn)
    requires FairTurn(view, pax, ys, x) && AllFair(view, pax, ys)
    ensures AllFair(view, pax, ys + [x])
  {
    hide FairTurn;
    var xs := ys + [x];
    forall k | 0 <= k < |xs| ensures FairTurn(view, pax, xs[..k], xs[k]) {
      assert xs[..k] == if k < |ys| then ys[..k] else ys;
    }
  }

  /**
   * A turn's ops: they revoke from exactly the victims, each under its claim, and grant the claim to the first of its
   * people, as many as the turn gives seats to, or to nobody.
   */
  lemma OpsMean(x: Turn)
    requires x.n <= |x.bc.claim.proposal.beneficiaries|
    ensures forall id, b :: Revokes(OpsOf(x), id, b) <==> exists v :: v in x.victims && v.claim == id && v.pid == b
    ensures forall o :: o in OpsOf(x) ==> o.op == Revoke || (o.op == Grant && x.n > 0)
    ensures x.n > 0 ==> OpsOf(x)[|OpsOf(x)|-1].op == Grant && OpsOf(x)[|OpsOf(x)|-1].claim == x.bc.id
    ensures forall o :: o in OpsOf(x) && o.op == Grant ==>
              o.claim == x.bc.id && (if o.beneficiaries.Some? then o.beneficiaries.value else x.bc.claim.proposal.beneficiaries) == Seats(x)
  {
    hide PidsUnder, SortBy, D.SortedNats, ClaimsOf;
    var ids := D.SortedNats(ClaimsOf(x.victims));
    var revokes := RevokeOps(x.victims, ids);
    forall id, b ensures Revokes(OpsOf(x), id, b) <==> exists v :: v in x.victims && v.claim == id && v.pid == b { RevokesVictims(x, ids, id, b); }
  }

  ghost predicate Revokes(ops: seq<RulingOp>, id: nat, b: Name) {
    exists o :: o in ops && o.op == Revoke && o.claim == id && o.beneficiaries.Some? && b in o.beneficiaries.value
  }

  lemma RevokesVictims(x: Turn, ids: seq<nat>, id: nat, b: Name)
    requires x.n <= |x.bc.claim.proposal.beneficiaries| && ids == D.SortedNats(ClaimsOf(x.victims))
    ensures Revokes(OpsOf(x), id, b) <==> exists v :: v in x.victims && v.claim == id && v.pid == b
  {
    hide PidsUnder, SortBy, D.SortedNats, NameLe;
    var revokes := RevokeOps(x.victims, ids);
    PidsUnderIs(x.victims, id);
    SortByElems(PidsUnder(x.victims, id), NameLe);
    assert OpsOf(x) == revokes + GrantPart(x.bc, x.n);
    if v :| v in x.victims && v.claim == id && v.pid == b {
      assert id in ids;
      var i :| 0 <= i < |ids| && ids[i] == id;
      assert revokes[i] == RevokeOp(x.victims, id) && revokes[i] in OpsOf(x);
    }
  }

  /** Served before: the better protected at best, then the earlier claim. */
  predicate ServedFirst(pax: Roster, a: ClaimView, b: ClaimView) {
    var x, y := BestRank(pax, a.claim.proposal.beneficiaries), BestRank(pax, b.claim.proposal.beneficiaries);
    x < y || (x == y && a.id <= b.id)
  }

  /** One turn for each blocked seat claim of the deadlock. */
  ghost predicate OneTurnEach(view: AgentView, dl: Deadlock, xs: seq<Turn>) {
    && (forall i, j :: 0 <= i < j < |xs| ==> xs[i].bc.id != xs[j].bc.id)
    && forall v :: (exists k :: 0 <= k < |xs| && xs[k].bc == v) <==> v in view.blocked && v.id in dl.claims && IsSeat(v.claim.proposal.resource)
  }

  /**
   * A seat ruling on any number of claims serves the deadlock's blocked seat claims one by one, the best protected first.
   * In each turn it bumps the first of those who may be bumped by then, as many as the claim is short, and gives the
   * claim what room there is, counting what earlier turns have won back, given and promised.
   */
  lemma EveryTurnFair(s: L.State, view: AgentView, pax: Roster, dl: Deadlock)
    requires Sound(s) && Shown(view, s)
    ensures var xs := RulingTurns(view, pax, dl);
            && SeatsRuling(view, pax, dl).ops == AllOps(xs) && OneTurnEach(view, dl, xs)
            && (forall i, j :: 0 <= i < j < |xs| ==> ServedFirst(pax, xs[i].bc, xs[j].bc))
            && AllFair(view, pax, xs)
  {
    hide *;
    var vs := Disputed(view.blocked, dl);
    var queue := SortBy(vs, ByProtection(pax));
    var xs := RulingTurns(view, pax, dl);
    RulingIs(view, pax, dl);
    ServeAllIsTurns(FreshDesk(view), pax, queue, view.granted);
    TurnsInOrder(FreshDesk(view), pax, queue, view.granted);
    TurnsAreFair(s, view, pax, queue);
    ShownDistinct(s, view);
    DisputedDistinct(view.blocked, dl);
    SortedQueue(vs, ByProtection(pax));
    EachOnce(view, dl, xs, queue, vs);
    InServingOrder(pax, vs, xs);
  }

  lemma EachOnce(view: AgentView, dl: Deadlock, xs: seq<Turn>, queue: seq<ClaimView>, vs: seq<ClaimView>)
    requires vs == Disputed(view.blocked, dl) && DistinctIds(queue) && (forall v :: v in queue <==> v in vs)
    requires |xs| == |queue| && forall i :: 0 <= i < |xs| ==> xs[i].bc == queue[i]
    ensures OneTurnEach(view, dl, xs)
  {
    hide Disputed, IsSeat;
    CF.DisputedFrom(view.blocked, dl);
    forall v ensures (exists k :: 0 <= k < |xs| && xs[k].bc == v) <==> v in queue {
      if k :| 0 <= k < |xs| && xs[k].bc == v { assert queue[k] in queue; }
      if v in queue {
        var k :| 0 <= k < |queue| && queue[k] == v;
        assert xs[k].bc == v;
      }
    }
  }

  lemma InServingOrder(pax: Roster, vs: seq<ClaimView>, xs: seq<Turn>)
    requires var queue := SortBy(vs, ByProtection(pax)); |xs| == |queue| && forall i :: 0 <= i < |xs| ==> xs[i].bc == queue[i]
    ensures forall i, j :: 0 <= i < j < |xs| ==> ServedFirst(pax, xs[i].bc, xs[j].bc)
  {
    hide SortBy, BestRank;
    ByProtectionOrder(pax);
    SortBySorted(vs, ByProtection(pax));
    var queue := SortBy(vs, ByProtection(pax));
    forall i, j | 0 <= i < j < |xs| ensures ServedFirst(pax, xs[i].bc, xs[j].bc) {
      assert ByProtection(pax)(queue[i], queue[j]);
    }
  }
}
