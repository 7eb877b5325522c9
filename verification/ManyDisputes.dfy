/** Seat rulings on any number of blocked claims: exactly when the ledger accepts every op. */
module ManyDisputes {
  import opened Order
  import opened Schemas
  import opened LedgerFacts
  import opened Rounds
  import opened Scenario
  import opened Fiat
  import opened SeatRuling
  import opened SeatRulingFacts
  import RF = RebookingFacts
  import L = Ledger
  import D = Detector

  // ---------------------------------------------------------------- a ruling turn by turn

  /** What the ruling does for one claim: whom it bumps off the flight, and how many of the claim's people it seats. */
  datatype Turn = Turn(bc: ClaimView, victims: seq<Candidate>, n: int)

  function Flight(x: Turn): Name {
    x.bc.claim.proposal.resource
  }

  function Seats(x: Turn): seq<Name> {
    if 0 < x.n <= |x.bc.claim.proposal.beneficiaries| then x.bc.claim.proposal.beneficiaries[..x.n] else []
  }

  function Chosen(d: Desk, pax: Roster, bc: ClaimView, granted: seq<ClaimView>): seq<Candidate> {
    var p := bc.claim.proposal;
    if Usable(d, p.resource) >= |p.beneficiaries| then [] else Victims(d, pax, bc, granted, |p.beneficiaries| - Usable(d, p.resource))
  }

  function TurnOf(d: Desk, pax: Roster, bc: ClaimView, granted: seq<ClaimView>): (x: Turn)
    ensures x.n <= |bc.claim.proposal.beneficiaries| && x.bc == bc
  {
    var p := bc.claim.proposal;
    Turn(bc, Chosen(d, pax, bc, granted), Min(|p.beneficiaries|, Usable(Bump(d, pax, bc, granted), p.resource)))
  }

  function Turns(d: Desk, pax: Roster, queue: seq<ClaimView>, granted: seq<ClaimView>): (xs: seq<Turn>)
    ensures |xs| == |queue|
    decreases |queue|
  {
    if queue == [] then []
    else
      var before := queue[..|queue|-1];
      Turns(d, pax, before, granted) + [TurnOf(ServeAll(d, pax, before, granted), pax, queue[|queue|-1], granted)]
  }

  lemma {:induction false} TurnsInOrder(d: Desk, pax: Roster, queue: seq<ClaimView>, granted: seq<ClaimView>)
    ensures var xs := Turns(d, pax, queue, granted); forall i :: 0 <= i < |xs| ==> xs[i].bc == queue[i]
    decreases |queue|
  {
    hide Serve, TurnOf;
    if queue != [] { TurnsInOrder(d, pax, queue[..|queue|-1], granted); }
  }

  function OpsOf(x: Turn): seq<RulingOp> {
    RevokeOps(x.victims, D.SortedNats(ClaimsOf(x.victims))) + if x.n <= |x.bc.claim.proposal.beneficiaries| then GrantPart(x.bc, x.n) else []
  }

  function AllOps(xs: seq<Turn>): seq<RulingOp>
    decreases |xs|
  {
    if xs == [] then [] else AllOps(xs[..|xs|-1]) + OpsOf(xs[|xs|-1])
  }

  lemma ServeIsTurn(d: Desk, pax: Roster, bc: ClaimView, granted: seq<ClaimView>)
    ensures Serve(d, pax, bc, granted).ops == d.ops + OpsOf(TurnOf(d, pax, bc, granted))
  {
    hide *;
    ServeIs(d, pax, bc, granted);
    ChosenIs(d, pax, bc, granted);
    BumpIs(d, pax, bc, granted, Chosen(d, pax, bc, granted));
    BumpKeepsOps(d, bc.claim.proposal.resource, Chosen(d, pax, bc, granted));
    TurnIs(d, pax, bc, granted);
  }

  lemma ChosenIs(d: Desk, pax: Roster, bc: ClaimView, granted: seq<ClaimView>)
    ensures var p := bc.claim.proposal;
            Chosen(d, pax, bc, granted) == if Usable(d, p.resource) >= |p.beneficiaries| then []
                                           else Victims(d, pax, bc, granted, |p.beneficiaries| - Usable(d, p.resource))
  {
    hide Usable, Victims;
  }

  lemma TurnIs(d: Desk, pax: Roster, bc: ClaimView, granted: seq<ClaimView>)
    ensures var (x, p) := (TurnOf(d, pax, bc, granted), bc.claim.proposal);
            && x == Turn(bc, Chosen(d, pax, bc, granted), Min(|p.beneficiaries|, Usable(Bump(d, pax, bc, granted), p.resource)))
            && x.n <= |p.beneficiaries|
            && OpsOf(x) == RevokeOps(x.victims, D.SortedNats(ClaimsOf(x.victims))) + GrantPart(bc, x.n)
  {
    hide Usable, Bump, Chosen, RevokeOps, GrantPart, D.SortedNats;
  }

  lemma {:induction false} BumpKeepsOps(d: Desk, r: Name, vs: seq<Candidate>)
    ensures BumpAll(d, r, vs).ops == d.ops
    decreases |vs|
  {
    if vs != [] { BumpKeepsOps(d, r, vs[..|vs|-1]); }
  }

  lemma {:induction false} ServeAllIsTurns(d: Desk, pax: Roster, queue: seq<ClaimView>, granted: seq<ClaimView>)
    ensures ServeAll(d, pax, queue, granted).ops == d.ops + AllOps(Turns(d, pax, queue, granted))
    decreases |queue|
  {
    hide Serve, TurnOf, OpsOf;
    if queue != [] {
      var before := queue[..|queue|-1];
      ServeAllIsTurns(d, pax, before, granted);
      ServeIsTurn(ServeAll(d, pax, before, granted), pax, queue[|queue|-1], granted);
      var xs := Turns(d, pax, queue, granted);
      assert xs[..|xs|-1] == Turns(d, pax, before, granted);
    }
  }

  // ---------------------------------------------------------------- what it takes and what it gives

  /** The seats a turn takes from their holders. */
  function Taken(x: Turn): set<L.Cell> {
    Cut(Flight(x), PidSet(x.victims))
  }

  function TakenBy(xs: seq<Turn>): set<L.Cell>
    decreases |xs|
  {
    if xs == [] then {} else TakenBy(xs[..|xs|-1]) + Taken(xs[|xs|-1])
  }

  /** The seats a turn gives, to the claim's first beneficiaries. */
  function GivenBy(xs: seq<Turn>): L.Allocs
    decreases |xs|
  {
    if xs == [] then map[]
    else
      var x := xs[|xs|-1];
      L.Granting(GivenBy(xs[..|xs|-1]), x.bc.id, Flight(x), Some(SEAT), Seats(x))
  }

  function SeatedBy(xs: seq<Turn>): set<Name>
    decreases |xs|
  {
    if xs == [] then {} else SeatedBy(xs[..|xs|-1]) + Elems(Seats(xs[|xs|-1]))
  }

  /**
   * The turn can be carried out: it takes no seat that an earlier turn has taken already, and seats nobody who has
   * a seat by then, be it one never taken away or one given by an earlier turn.
   */
  ghost predicate Clean(s: L.State, before: seq<Turn>, x: Turn) {
    && Taken(x) !! TakenBy(before)
    && forall b :: b in Seats(x) ==> !L.HeldInGroup(s.allocs - (TakenBy(before) + Taken(x)), SEAT, b) && b !in SeatedBy(before)
  }

  ghost predicate AllClean(s: L.State, xs: seq<Turn>) {
    forall i :: 0 <= i < |xs| ==> Clean(s, xs[..i], xs[i])
  }

  lemma AllCleanMore(s: L.State, xs: seq<Turn>)
    requires xs != []
    ensures AllClean(s, xs) <==> AllClean(s, xs[..|xs|-1]) && Clean(s, xs[..|xs|-1], xs[|xs|-1])
  {
    hide Clean;
    var before := xs[..|xs|-1];
    assert forall i :: 0 <= i < |before| ==> before[..i] == xs[..i] && before[i] == xs[i];
  }

  // ---------------------------------------------------------------- the ledger along the way

  predicate Disputing(xs: seq<Turn>, id: nat) {
    exists i :: 0 <= i < |xs| && xs[i].bc.id == id
  }

  /** Where the ledger and the desk stand after turns that were all carried out. */
  ghost predicate Tracks(s: L.State, t: L.State, d: Desk, xs: seq<Turn>) {
    && Sound(t) && t.resources == s.resources && t.allocs == (s.allocs - TakenBy(xs)) + GivenBy(xs)
    && (forall k :: k in GivenBy(xs) && k in s.allocs ==> k in TakenBy(xs))
    && ClaimsKept(s, t, xs) && Counts(t, d)
  }

  /** Claims keep their proposals, and those not dealt with yet stay blocked. */
  ghost predicate ClaimsKept(s: L.State, t: L.State, xs: seq<Turn>) {
    && t.claims.Keys == s.claims.Keys
    && (forall i :: i in s.claims ==> t.claims[i].proposal == s.claims[i].proposal)
    && (forall i :: i in s.claims && s.claims[i].status == Blocked && !Disputing(xs, i) ==> t.claims[i].status == Blocked)
  }

  /** The desk's tally of free seats is the ledger's. */
  ghost predicate Counts(t: L.State, d: Desk) {
    forall r :: r in t.resources && IsSeat(r) ==> RoomOn(d.free, r) == L.Free(t, r)
  }

  /** A claim on seats that is blocked in the ledger and shown as it is there. */
  ghost predicate Waits(s: L.State, bc: ClaimView) {
    bc.id in s.claims && s.claims[bc.id].status == Blocked && s.claims[bc.id].proposal == bc.claim.proposal && IsSeat(bc.claim.proposal.resource)
  }

  // ---------------------------------------------------------------- the victims of any turn

  lemma WeighedAlt(d: Desk, pax: Roster, bc: ClaimView, gc: ClaimView, c: Candidate)
    requires Weighed(d, pax, bc, gc, c)
    ensures c.claim == gc.id && c.alt != bc.claim.proposal.resource
  {
    hide Rank, BestRank;
    assert c in Consider(d, pax, bc, gc, c.pid);
  }

  lemma OfferedHolds(s: L.State, view: AgentView, d: Desk, pax: Roster, bc: ClaimView, c: Candidate)
    requires Sound(s) && Shown(view, s) && Offered(d, pax, bc, view.granted, c)
    ensures var r := bc.claim.proposal.resource;
            && c.alt != r && c.claim in s.claims && s.claims[c.claim].status == Granted && s.claims[c.claim].proposal.resource == r
            && (r, c.pid) in s.allocs && s.allocs[(r, c.pid)].claim == c.claim
  {
    hide Sound, Shown, Weighed, L.Holders;
    var gc :| gc in view.granted && Bumpable(bc, gc) && c.pid in gc.holders && Weighed(d, pax, bc, gc, c);
    var k :| 0 <= k < |view.granted| && view.granted[k] == gc;
    GrantedAt(s, view, k);
    HolderCell(s, gc.id, c.pid);
    WeighedAlt(d, pax, bc, gc, c);
  }

  /** Whoever a turn picks, all different, held the flight under a granted claim when the view was taken. */
  lemma ChosenHold(s: L.State, view: AgentView, d: Desk, pax: Roster, bc: ClaimView)
    requires Sound(s) && Shown(view, s)
    ensures var (vs, r) := (Chosen(d, pax, bc, view.granted), bc.claim.proposal.resource);
            DistinctPids(vs) && Holding(s, r, vs, ClaimsOf(vs)) && forall v :: v in vs ==> v.alt != r
  {
    hide Sound, Shown, Gather, Offered, DistinctPids, SortBy, Usable, Separate, BestRank;
    var cs := Gather(d, pax, bc, view.granted);
    ShownSeparate(s, view, bc);
    GatherIs(d, pax, bc, view.granted);
    SortByElems(cs, LessProtectedFirst);
    DistinctSorted(cs, SortBy(cs, LessProtectedFirst));
    DistinctPrefix(SortBy(cs, LessProtectedFirst));
    var vs := Chosen(d, pax, bc, view.granted);
    forall v | v in vs ensures Offered(d, pax, bc, view.granted, v) {
      assert v in SortBy(cs, LessProtectedFirst);
    }
    forall v | v in vs ensures v.alt != bc.claim.proposal.resource && HoldsNow(s, bc.claim.proposal.resource, v) { OfferedHolds(s, view, d, pax, bc, v); }
  }

  ghost predicate HoldsNow(s: L.State, r: Name, v: Candidate) {
    && v.claim in s.claims && s.claims[v.claim].status == Granted && s.claims[v.claim].proposal.resource == r
    && (r, v.pid) in s.allocs && s.allocs[(r, v.pid)].claim == v.claim
  }

  lemma DistinctPrefix(cs: seq<Candidate>)
    requires DistinctPids(cs)
    ensures DistinctPids([]) && forall n :: 0 <= n <= |cs| ==> DistinctPids(cs[..n])
  {}

  // ---------------------------------------------------------------- when the revokes are accepted

  ghost predicate OnlyRevokes(ops: seq<RulingOp>) {
    forall o :: o in ops ==> o.op == Revoke && o.beneficiaries.Some?
  }

  /** What each op takes back is there to be taken. */
  ghost predicate AllHeld(s: L.State, ops: seq<RulingOp>) {
    forall o, b :: o in ops && o.beneficiaries.Some? && b in o.beneficiaries.value ==>
      o.claim in s.claims && (s.claims[o.claim].proposal.resource, b) in s.allocs
      && s.allocs[(s.claims[o.claim].proposal.resource, b)].claim == o.claim
  }

  lemma RevokeNeeds(s: L.State, o: RulingOp, ruling: nat, round: nat)
    requires o.op == Revoke && o.beneficiaries.Some? && L.RuleOp(s, o, ruling, round).out == L.Ok
    ensures AllHeld(s, [o])
    ensures var t := L.RuleOp(s, o, ruling, round).state;
            && t.claims.Keys == s.claims.Keys && (forall i :: i in s.claims ==> t.claims[i].proposal == s.claims[i].proposal)
            && forall k :: k in t.allocs ==> k in s.allocs && t.allocs[k] == s.allocs[k]
  {
    hide L.Holders;
  }

  lemma HeldEarlier(s: L.State, t: L.State, ops: seq<RulingOp>)
    requires AllHeld(t, ops) && t.claims.Keys == s.claims.Keys && (forall i :: i in s.claims ==> t.claims[i].proposal == s.claims[i].proposal)
    requires forall k :: k in t.allocs ==> k in s.allocs && t.allocs[k] == s.allocs[k]
    ensures AllHeld(s, ops)
  {}

  lemma AllHeldBoth(s: L.State, ops: seq<RulingOp>)
    requires ops != [] && AllHeld(s, [ops[0]]) && AllHeld(s, ops[1..])
    ensures AllHeld(s, ops)
  {
    assert forall o :: o in ops <==> o in [ops[0]] || o in ops[1..];
  }

  /** Revokes that are all accepted name only what was held when the first of them came. */
  lemma {:induction false} AcceptedMeansHeld(s: L.State, ops: seq<RulingOp>, ruling: nat, round: nat)
    requires OnlyRevokes(ops) && L.RuleOps(s, ops, ruling, round).out == L.Ok
    ensures AllHeld(s, ops)
    decreases |ops|
  {
    hide L.RuleOp, AllHeld;
    if ops == [] {
      NothingHeld(s);
    } else {
      assert ops[0] in ops;
      var t := L.RuleOp(s, ops[0], ruling, round).state;
      RevokeNeeds(s, ops[0], ruling, round);
      AcceptedMeansHeld(t, ops[1..], ruling, round);
      HeldEarlier(s, t, ops[1..]);
      AllHeldBoth(s, ops);
    }
  }

  lemma NothingHeld(s: L.State)
    ensures AllHeld(s, [])
  {}

  lemma RevokesAreRevokes(vs: seq<Candidate>, ids: seq<nat>)
    ensures OnlyRevokes(RevokeOps(vs, ids))
  {
    hide SortBy, PidsUnder;
  }

  lemma VictimNamed(vs: seq<Candidate>, v: Candidate)
    requires v in vs
    ensures exists o :: o in RevokeOps(vs, D.SortedNats(ClaimsOf(vs))) && o.claim == v.claim && o.beneficiaries.Some? && v.pid in o.beneficiaries.value
  {
    hide *;
    var ids := D.SortedNats(ClaimsOf(vs));
    ClaimListed(vs, v);
    var i :| 0 <= i < |ids| && ids[i] == v.claim;
    var ops := RevokeOps(vs, ids);
    assert ops[i] in ops;
    RevokeNames(vs, v);
  }

  lemma ClaimListed(vs: seq<Candidate>, v: Candidate)
    requires v in vs
    ensures v.claim in D.SortedNats(ClaimsOf(vs))
  {
    hide D.SortedNats;
  }

  lemma RevokeNames(vs: seq<Candidate>, v: Candidate)
    requires v in vs
    ensures var o := RevokeOp(vs, v.claim); o.claim == v.claim && o.beneficiaries.Some? && v.pid in o.beneficiaries.value
  {
    PidsUnderIs(vs, v.claim);
    SortByElems(PidsUnder(vs, v.claim), NameLe);
    hide SortBy, PidsUnder;
  }

  /** A turn's revokes are all accepted if and only if every victim still holds the seat under the claim the view showed. */
  lemma RevokesAccepted(t: L.State, r: Name, vs: seq<Candidate>, ruling: nat, round: nat)
    requires Sound(t) && DistinctPids(vs)
    requires forall v :: v in vs ==> v.claim in t.claims && t.claims[v.claim].proposal.resource == r
    ensures L.RuleOps(t, RevokeOps(vs, D.SortedNats(ClaimsOf(vs))), ruling, round).out == L.Ok <==> Holding(t, r, vs, ClaimsOf(vs))
  {
    hide *;
    var ops := RevokeOps(vs, D.SortedNats(ClaimsOf(vs)));
    if Holding(t, r, vs, ClaimsOf(vs)) { HoldingRuns(t, r, vs, ruling, round); }
    if L.RuleOps(t, ops, ruling, round).out == L.Ok {
      RevokesAreRevokes(vs, D.SortedNats(ClaimsOf(vs)));
      AcceptedMeansHeld(t, ops, ruling, round);
      forall v | v in vs ensures HoldsNow(t, r, v) {
        VictimNamed(vs, v);
        StillHeld(t, r, ops, v);
      }
      HoldingMeans(t, r, vs);
    }
  }

  lemma HoldingMeans(t: L.State, r: Name, vs: seq<Candidate>)
    ensures Holding(t, r, vs, ClaimsOf(vs)) <==> forall v :: v in vs ==> HoldsNow(t, r, v)
  {}

  lemma HoldingRuns(t: L.State, r: Name, vs: seq<Candidate>, ruling: nat, round: nat)
    requires DistinctPids(vs) && Holding(t, r, vs, ClaimsOf(vs))
    ensures var st := L.RuleOps(t, RevokeOps(vs, D.SortedNats(ClaimsOf(vs))), ruling, round);
            && st.out == L.Ok && st.state.allocs == t.allocs - Cut(r, PidSet(vs)) && st.state.resources == t.resources
            && st.state.claims.Keys == t.claims.Keys
            && (forall i :: i in t.claims && i !in ClaimsOf(vs) ==> st.state.claims[i] == t.claims[i])
  {
    hide Holding, DistinctPids, L.RuleOps, RevokeOps, CellsUnder, Cut, D.SortedNats;
    var ids := D.SortedNats(ClaimsOf(vs));
    assert Elems(ids) == ClaimsOf(vs);
    forall id | id in ids ensures exists v :: v in vs && v.claim == id {}
    RevokesRun(t, r, vs, ids, ruling, round);
    AllVictims(r, vs);
  }

  lemma StillHeld(t: L.State, r: Name, ops: seq<RulingOp>, v: Candidate)
    requires Sound(t) && AllHeld(t, ops) && v.claim in t.claims && t.claims[v.claim].proposal.resource == r
    requires exists o :: o in ops && o.claim == v.claim && o.beneficiaries.Some? && v.pid in o.beneficiaries.value
    ensures HoldsNow(t, r, v)
  {
    hide Within, Exclusive, Filed;
  }

  // ---------------------------------------------------------------- one turn on the ledger

  lemma TakenMeans(x: Turn, r: Name, b: Name)
    ensures (r, b) in Taken(x) <==> r == Flight(x) && exists v :: v in x.victims && v.pid == b
  {}

  /** Given seats belong to disputed claims. */
  lemma {:induction false} GivenMeans(xs: seq<Turn>, k: L.Cell)
    requires k in GivenBy(xs)
    ensures Disputing(xs, GivenBy(xs)[k].claim) && GivenBy(xs)[k].group == Some(SEAT) && k.1 in SeatedBy(xs)
    decreases |xs|
  {
    var n := |xs| - 1;
    var before := xs[..n];
    hide Flight, Seats;
    if k !in GivenBy(before) || GivenBy(xs)[k] != GivenBy(before)[k] {
      assert xs[n].bc.id == GivenBy(xs)[k].claim;
    } else {
      GivenMeans(before, k);
      var i :| 0 <= i < |before| && before[i].bc.id == GivenBy(before)[k].claim;
      assert xs[i].bc.id == GivenBy(before)[k].claim;
      if k.1 in Seats(xs[n]) {}
    }
  }

  /** Whoever was seated has a given seat. */
  lemma {:induction false} SeatedMeans(xs: seq<Turn>, b: Name)
    ensures b in SeatedBy(xs) <==> exists k :: k in GivenBy(xs).Keys && k.1 == b
    decreases |xs|
  {
    hide Flight, Seats;
    if xs != [] {
      var n := |xs| - 1;
      SeatedMeans(xs[..n], b);
      var g := GivenBy(xs);
      if b in Seats(xs[n]) { assert (Flight(xs[n]), b) in g.Keys; }
      if k :| k in GivenBy(xs[..n]).Keys && k.1 == b { assert k in g.Keys; }
    }
  }

  /** The victims of a turn still hold their seats exactly when none of these has been taken by an earlier turn. */
  lemma HoldingIffUntaken(s: L.State, t: L.State, d: Desk, xs: seq<Turn>, x: Turn)
    requires Tracks(s, t, d, xs) && Holding(s, Flight(x), x.victims, ClaimsOf(x.victims))
    requires forall i :: Disputing(xs, i) && i in s.claims ==> s.claims[i].status == Blocked
    ensures Holding(t, Flight(x), x.victims, ClaimsOf(x.victims)) <==> Taken(x) !! TakenBy(xs)
  {
    hide *;
    var r := Flight(x);
    HoldingMeans(s, r, x.victims);
    HoldingMeans(t, r, x.victims);
    forall v | v in x.victims ensures HoldsNow(t, r, v) <==> (r, v.pid) !in TakenBy(xs) { HoldsIffUntaken(s, t, d, xs, r, v); }
    TakenApart(x, TakenBy(xs));
  }

  lemma TakenApart(x: Turn, cells: set<L.Cell>)
    ensures Taken(x) !! cells <==> forall v :: v in x.victims ==> (Flight(x), v.pid) !in cells
  {
    forall v | v in x.victims ensures (Flight(x), v.pid) in Taken(x) {}
  }

  lemma HoldsIffUntaken(s: L.State, t: L.State, d: Desk, xs: seq<Turn>, r: Name, v: Candidate)
    requires Tracks(s, t, d, xs) && HoldsNow(s, r, v)
    requires forall i :: Disputing(xs, i) && i in s.claims ==> s.claims[i].status == Blocked
    ensures HoldsNow(t, r, v) <==> (r, v.pid) !in TakenBy(xs)
  {
    hide Counts, Disputing, TakenBy, GivenBy, Within, Exclusive, Filed;
    var k := (r, v.pid);
    if k in GivenBy(xs) { GivenMeans(xs, k); }
    if k !in TakenBy(xs) { assert t.allocs[k] == s.allocs[k]; }
  }

  lemma {:induction false} RoomAfterBumps(d: Desk, r: Name, vs: seq<Candidate>, q: Name)
    ensures RoomOn(BumpAll(d, r, vs).free, q) == RoomOn(d.free, q) + if q == r then |vs| else 0
    decreases |vs|
  {
    if vs != [] { RoomAfterBumps(d, r, vs[..|vs|-1], q); }
  }

  /** What a turn leaves of the desk's tally. */
  lemma RoomAfterTurn(d: Desk, pax: Roster, bc: ClaimView, granted: seq<ClaimView>, q: Name)
    ensures var (x, r) := (TurnOf(d, pax, bc, granted), bc.claim.proposal.resource);
            && RoomOn(Serve(d, pax, bc, granted).free, q) == RoomOn(d.free, q) + (if q == r then |x.victims| - |Seats(x)| else 0)
            && (Seats(x) != [] ==> |Seats(x)| <= RoomOn(d.free, r) + |x.victims|)
  {
    hide Victims, RevokeOps, Owners, BumpAll, ClaimsOf, GrantOf, D.SortedNats;
    var r := bc.claim.proposal.resource;
    RoomAfterBumps(d, r, Chosen(d, pax, bc, granted), q);
    RoomAfterBumps(d, r, Chosen(d, pax, bc, granted), r);
    assert RoomOn(BumpAll(d, r, []).free, q) == RoomOn(d.free, q) by { RoomAfterBumps(d, r, [], q); }
  }

  /** Some encodings; which ones makes no difference to soundness. */
  const ENCODINGS := Crypto((b: Bytes) => b, (p: Proposal) => [], (e: Envelope) => [], (m: Manifest) => [])

  lemma {:induction false} RuleOpsSound(s: L.State, ops: seq<RulingOp>, ruling: nat, round: nat)
    requires Sound(s)
    ensures var t := L.RuleOps(s, ops, ruling, round).state; Sound(t) && forall i :: i in s.claims ==> i in t.claims && t.claims[i].proposal == s.claims[i].proposal
    decreases |ops|
  {
    hide Sound, L.RuleOp;
    if ops != [] {
      RuleOpGood(s, ENCODINGS, ops[0], ruling, round);
      RuleOpsSound(L.RuleOp(s, ops[0], ruling, round).state, ops[1..], ruling, round);
    }
  }

  lemma {:induction false} RuleOpsFail(s: L.State, a: seq<RulingOp>, b: seq<RulingOp>, ruling: nat, round: nat)
    requires L.RuleOps(s, a, ruling, round).out != L.Ok
    ensures L.RuleOps(s, a + b, ruling, round).out != L.Ok
    decreases |a|
  {
    hide L.RuleOp;
    assert (a + b)[0] == a[0] && (a + b)[1..] == a[1..] + b;
    if L.RuleOp(s, a[0], ruling, round).out == L.Ok { RuleOpsFail(L.RuleOp(s, a[0], ruling, round).state, a[1..], b, ruling, round); }
  }

  /** Where the ledger stands once the turn's revokes are through. */
  ghost predicate Cleared(s: L.State, t: L.State, xs: seq<Turn>, x: Turn) {
    && Sound(t) && t.resources == s.resources && t.allocs == (s.allocs - (TakenBy(xs) + Taken(x))) + GivenBy(xs)
    && (forall k :: k in GivenBy(xs) && k in s.allocs ==> k in TakenBy(xs) + Taken(x))
    && ClaimsKept(s, t, xs)
  }

  lemma RevokesClear(s: L.State, t: L.State, d: Desk, xs: seq<Turn>, x: Turn, ruling: nat, round: nat)
    requires Tracks(s, t, d, xs) && Taken(x) !! TakenBy(xs) && DistinctPids(x.victims)
    requires Holding(s, Flight(x), x.victims, ClaimsOf(x.victims)) && Holding(t, Flight(x), x.victims, ClaimsOf(x.victims))
    ensures var u := L.RuleOps(t, RevokeOps(x.victims, D.SortedNats(ClaimsOf(x.victims))), ruling, round).state; Cleared(s, u, xs, x) && u.allocs == t.allocs - Taken(x)
  {
    hide *;
    var ops := RevokeOps(x.victims, D.SortedNats(ClaimsOf(x.victims)));
    var u := L.RuleOps(t, ops, ruling, round).state;
    TracksCells(s, t, d, xs);
    HoldingRuns(t, Flight(x), x.victims, ruling, round);
    TakenIs(x);
    RuleOpsSound(t, ops, ruling, round);
    TakenWasHeld(s, x);
    CellsClear(s, t, u, TakenBy(xs), GivenBy(xs), Taken(x));
    VictimsGranted(s, x);
    RevokedKept(s, t, u, xs, x);
    IsCleared(s, u, xs, x);
  }

  lemma TakenIs(x: Turn)
    ensures Taken(x) == Cut(Flight(x), PidSet(x.victims))
  {}

  lemma TracksCells(s: L.State, t: L.State, d: Desk, xs: seq<Turn>)
    requires Tracks(s, t, d, xs)
    ensures Sound(t) && t.resources == s.resources && t.allocs == (s.allocs - TakenBy(xs)) + GivenBy(xs) && ClaimsKept(s, t, xs) && Counts(t, d)
    ensures forall k :: k in GivenBy(xs) && k in s.allocs ==> k in TakenBy(xs)
  {}

  lemma IsCleared(s: L.State, u: L.State, xs: seq<Turn>, x: Turn)
    requires Sound(u) && u.resources == s.resources && u.allocs == (s.allocs - (TakenBy(xs) + Taken(x))) + GivenBy(xs) && ClaimsKept(s, u, xs)
    requires forall k :: k in GivenBy(xs) && k in s.allocs ==> k in TakenBy(xs)
    ensures Cleared(s, u, xs, x)
  {}

  /** Revokes change only claims that were granted in the view. */
  lemma RevokedKept(s: L.State, t: L.State, u: L.State, xs: seq<Turn>, x: Turn)
    requires ClaimsKept(s, t, xs) && u.claims.Keys == t.claims.Keys && (forall i :: i in t.claims && i !in ClaimsOf(x.victims) ==> u.claims[i] == t.claims[i])
    requires forall i :: i in ClaimsOf(x.victims) ==> i in s.claims && s.claims[i].status == Granted
    requires forall i :: i in t.claims ==> u.claims[i].proposal == t.claims[i].proposal
    ensures ClaimsKept(s, u, xs)
  {
    hide ClaimsOf, Disputing;
  }

  lemma TakenWasHeld(s: L.State, x: Turn)
    requires Holding(s, Flight(x), x.victims, ClaimsOf(x.victims))
    ensures forall k :: k in Taken(x) ==> k in s.allocs
  {}

  lemma VictimsGranted(s: L.State, x: Turn)
    requires Holding(s, Flight(x), x.victims, ClaimsOf(x.victims))
    ensures forall i :: i in ClaimsOf(x.victims) ==> i in s.claims && s.claims[i].status == Granted
  {}

  lemma CellsClear(s: L.State, t: L.State, u: L.State, taken: set<L.Cell>, given: L.Allocs, more: set<L.Cell>)
    requires t.allocs == (s.allocs - taken) + given && u.allocs == t.allocs - more && more !! taken
    requires (forall k :: k in given && k in s.allocs ==> k in taken) && forall k :: k in more ==> k in s.allocs
    ensures u.allocs == (s.allocs - (taken + more)) + given
  {}

  /** Who has a seat once the revokes are through. */
  lemma SeatedThen(s: L.State, t: L.State, xs: seq<Turn>, x: Turn, b: Name)
    requires Cleared(s, t, xs, x)
    ensures L.HeldInGroup(t.allocs, SEAT, b) <==> L.HeldInGroup(s.allocs - (TakenBy(xs) + Taken(x)), SEAT, b) || b in SeatedBy(xs)
  {
    hide Sound, ClaimsKept, TakenBy, Taken, SeatedBy, GivenBy;
    var left, given := s.allocs - (TakenBy(xs) + Taken(x)), GivenBy(xs);
    SeatedMeans(xs, b);
    forall k | k in given.Keys ensures given[k].group == Some(SEAT) { GivenMeans(xs, k); }
    assert t.allocs.Keys == left.Keys + given.Keys;
  }

  /** With room for them, a blocked claim's first `n` people are granted seats if and only if none of them has one. */
  lemma GrantAccepted(t: L.State, bc: ClaimView, n: nat, ruling: nat, round: nat)
    requires Sound(t) && bc.id in t.claims && t.claims[bc.id].status == Blocked && t.claims[bc.id].proposal == bc.claim.proposal
    requires var p := bc.claim.proposal;
             p.resource in t.resources && t.resources[p.resource].group == Some(SEAT) && 0 < n <= |p.beneficiaries| && n <= L.Free(t, p.resource)
    ensures var (st, p) := (L.RuleOp(t, GrantOf(bc, n), ruling, round), bc.claim.proposal);
            && (st.out == L.Ok <==> forall b :: b in p.beneficiaries[..n] ==> !L.HeldInGroup(t.allocs, SEAT, b))
            && (st.out == L.Ok ==>
                  && st.state.allocs == L.Granting(t.allocs, bc.id, p.resource, Some(SEAT), p.beneficiaries[..n]) && st.state.resources == t.resources
                  && st.state.claims == t.claims[bc.id := t.claims[bc.id].(status := Granted, resolved := Some(round))])
  {
    hide L.Used, L.Granting, L.HeldInGroup, Within, Exclusive, Filed;
    var p := bc.claim.proposal;
    var targets := p.beneficiaries[..n];
    assert p.beneficiaries[..|p.beneficiaries|] == p.beneficiaries && NoDup(targets);
    forall b | b in targets && !L.HeldInGroup(t.allocs, SEAT, b) ensures (p.resource, b) !in t.allocs { RF.NotOnSeat(t, p.resource, b); }
  }

  lemma GrantDone(s: L.State, u: L.State, v: L.State, xs: seq<Turn>, x: Turn, round: nat)
    requires Backed(s) && Cleared(s, u, xs, x) && Clean(s, xs, x) && RF.SeatsGrouped(s) && Waits(s, x.bc) && Sound(v) && v.resources == u.resources
    requires v.allocs == L.Granting(u.allocs, x.bc.id, Flight(x), Some(SEAT), Seats(x))
    requires v.claims == u.claims || v.claims == u.claims[x.bc.id := u.claims[x.bc.id].(status := Granted, resolved := Some(round))]
    ensures v.allocs == (s.allocs - TakenBy(xs + [x])) + GivenBy(xs + [x])
    ensures forall k :: k in GivenBy(xs + [x]) && k in s.allocs ==> k in TakenBy(xs + [x])
    ensures ClaimsKept(s, v, xs + [x])
  {
    hide *;
    OneMore(xs, x);
    ClearedCells(s, u, xs, x);
    GrantingCells(s.allocs - (TakenBy(xs) + Taken(x)), GivenBy(xs), x.bc.id, Flight(x), Seats(x));
    GrantingKeys(GivenBy(xs), x.bc.id, Flight(x), Seats(x));
    FlightIsSeat(s, x);
    forall k | k in GivenBy(xs + [x]) && k in s.allocs ensures k in TakenBy(xs + [x]) {
      if k !in GivenBy(xs) { SeatNotTaken(s, xs, x, k.1); }
    }
    ClaimsMoved(s, u, v, xs, x, round);
  }

  lemma ClearedCells(s: L.State, u: L.State, xs: seq<Turn>, x: Turn)
    requires Cleared(s, u, xs, x)
    ensures Sound(u) && u.resources == s.resources && u.allocs == (s.allocs - (TakenBy(xs) + Taken(x))) + GivenBy(xs) && ClaimsKept(s, u, xs)
    ensures forall k :: k in GivenBy(xs) && k in s.allocs ==> k in TakenBy(xs) + Taken(x)
  {}

  lemma FlightIsSeat(s: L.State, x: Turn)
    requires Waits(s, x.bc)
    ensures IsSeat(Flight(x))
  {}

  lemma ClaimsMoved(s: L.State, u: L.State, v: L.State, xs: seq<Turn>, x: Turn, round: nat)
    requires ClaimsKept(s, u, xs) && Waits(s, x.bc)
    requires v.claims == u.claims || v.claims == u.claims[x.bc.id := u.claims[x.bc.id].(status := Granted, resolved := Some(round))]
    ensures ClaimsKept(s, v, xs + [x])
  {
    hide IsSeat, Disputing;
    DisputingMore(xs, x);
  }

  lemma OneMore(xs: seq<Turn>, x: Turn)
    ensures TakenBy(xs + [x]) == TakenBy(xs) + Taken(x)
    ensures GivenBy(xs + [x]) == L.Granting(GivenBy(xs), x.bc.id, Flight(x), Some(SEAT), Seats(x))
  {
    hide Taken, L.Granting, Seats;
    assert (xs + [x])[..|xs|] == xs;
  }

  lemma DisputingMore(xs: seq<Turn>, x: Turn)
    ensures forall i :: Disputing(xs + [x], i) <==> Disputing(xs, i) || i == x.bc.id
  {
    var ys := xs + [x];
    assert ys[|xs|] == x;
    forall i ensures Disputing(ys, i) <==> Disputing(xs, i) || i == x.bc.id {
      if j :| 0 <= j < |xs| && xs[j].bc.id == i { assert ys[j].bc.id == i; }
    }
  }

  lemma GrantingCells(a: L.Allocs, given: L.Allocs, id: nat, r: Name, bens: seq<Name>)
    ensures L.Granting(a + given, id, r, Some(SEAT), bens) == a + L.Granting(given, id, r, Some(SEAT), bens)
  {}

  lemma GrantingKeys(a: L.Allocs, id: nat, r: Name, bens: seq<Name>)
    ensures forall k :: k in L.Granting(a, id, r, Some(SEAT), bens) <==> k in a || (k.0 == r && k.1 in bens)
  {}

  lemma CellHolds(a: L.Allocs, k: L.Cell)
    requires k in a && a[k].group == Some(SEAT)
    ensures L.HeldInGroup(a, SEAT, k.1)
  {
    assert k in a.Keys;
  }

  /** A seat a clean turn gives was nobody's, or has been taken away first. */
  lemma SeatNotTaken(s: L.State, xs: seq<Turn>, x: Turn, b: Name)
    requires Clean(s, xs, x) && RF.SeatsGrouped(s) && IsSeat(Flight(x)) && Backed(s) && b in Seats(x) && (Flight(x), b) in s.allocs
    ensures (Flight(x), b) in TakenBy(xs) + Taken(x)
  {
    hide TakenBy, Taken, Seats, IsSeat, Flight, SeatedBy;
    var k := (Flight(x), b);
    var left := s.allocs - (TakenBy(xs) + Taken(x));
    if k in left { CellHolds(left, k); }
  }

  lemma UsedElsewhere(a: L.Allocs, r: Name, bens: set<Name>, q: Name)
    requires q != r
    ensures L.Used(a - Cut(r, bens), q) == L.Used(a, q)
  {
    OnHas(a.Keys, q);
    OnHas((a - Cut(r, bens)).Keys, q);
    hide L.On;
    assert L.On((a - Cut(r, bens)).Keys, q) == L.On(a.Keys, q);
  }

  /** A revoked seat is a free seat. */
  lemma FreeAfterRevokes(t: L.State, u: L.State, x: Turn, q: Name)
    requires q in t.resources && u.resources == t.resources && u.allocs == t.allocs - Taken(x) && DistinctPids(x.victims)
    requires Holding(t, Flight(x), x.victims, ClaimsOf(x.victims))
    ensures L.Free(u, q) == L.Free(t, q) + if q == Flight(x) then |x.victims| else 0
  {
    hide DistinctPids, L.Used, Cut, L.On, Flight;
    if q == Flight(x) {
      PidCount(x.victims);
      VictimsOn(t, q, x.victims);
      CutUsed(t.allocs, q, PidSet(x.victims));
    } else {
      UsedElsewhere(t.allocs, Flight(x), PidSet(x.victims), q);
    }
  }

  lemma VictimsOn(t: L.State, r: Name, vs: seq<Candidate>)
    requires Holding(t, r, vs, ClaimsOf(vs))
    ensures PidSet(vs) <= L.On(t.allocs.Keys, r)
  {
    OnHas(t.allocs.Keys, r);
    hide L.On;
  }

  /** After the turn the desk's tally is right again. */
  lemma CountsNext(t: L.State, u: L.State, v: L.State, d: Desk, pax: Roster, bc: ClaimView, granted: seq<ClaimView>)
    requires var x := TurnOf(d, pax, bc, granted);
             && Counts(t, d) && u.resources == t.resources && v.resources == t.resources && u.allocs == t.allocs - Taken(x) && DistinctPids(x.victims)
             && Holding(t, Flight(x), x.victims, ClaimsOf(x.victims)) && NoDup(Seats(x)) && (forall b :: b in Seats(x) ==> (Flight(x), b) !in u.allocs)
             && v.allocs == L.Granting(u.allocs, bc.id, Flight(x), Some(SEAT), Seats(x))
    ensures Counts(v, Serve(d, pax, bc, granted))
  {
    hide Holding, DistinctPids, Taken, Serve, TurnOf, L.Used, L.Granting, RoomOn, IsSeat, Seats;
    var x := TurnOf(d, pax, bc, granted);
    forall q | q in v.resources && IsSeat(q) ensures RoomOn(Serve(d, pax, bc, granted).free, q) == L.Free(v, q) {
      RoomAfterTurn(d, pax, bc, granted, q);
      FreeAfterRevokes(t, u, x, q);
      GrantingUsed(u.allocs, bc.id, Flight(x), Some(SEAT), Seats(x), q);
    }
  }

  lemma SeatsNoDup(x: Turn)
    ensures NoDup(Seats(x)) && (x.n <= |x.bc.claim.proposal.beneficiaries| ==> |Seats(x)| == if x.n <= 0 then 0 else x.n)
  {}

  lemma CleanSeats(s: L.State, u: L.State, xs: seq<Turn>, x: Turn)
    requires Cleared(s, u, xs, x) && Taken(x) !! TakenBy(xs)
    ensures Clean(s, xs, x) <==> forall b :: b in Seats(x) ==> !L.HeldInGroup(u.allocs, SEAT, b)
  {
    hide Cleared, TakenBy, Taken, Seats, SeatedBy, L.HeldInGroup;
    forall b | b in Seats(x)
      ensures L.HeldInGroup(u.allocs, SEAT, b) <==> L.HeldInGroup(s.allocs - (TakenBy(xs) + Taken(x)), SEAT, b) || b in SeatedBy(xs)
    {
      SeatedThen(s, u, xs, x, b);
    }
  }

  lemma CleanUntaken(s: L.State, xs: seq<Turn>, x: Turn)
    requires Clean(s, xs, x)
    ensures Taken(x) !! TakenBy(xs)
  {}

  /** The grant of a turn whose revokes are through. */
  lemma GrantRound(s: L.State, u: L.State, xs: seq<Turn>, x: Turn, ruling: nat, round: nat)
    requires Cleared(s, u, xs, x) && Taken(x) !! TakenBy(xs) && RF.SeatsGrouped(s) && Waits(s, x.bc) && !Disputing(xs, x.bc.id) && Filed(s)
    requires x.n <= |x.bc.claim.proposal.beneficiaries| && Flight(x) in s.resources && (Seats(x) != [] ==> |Seats(x)| <= L.Free(u, Flight(x)))
    ensures var st := L.RuleOps(u, GrantPart(x.bc, x.n), ruling, round);
            && (st.out == L.Ok <==> Clean(s, xs, x))
            && (st.out == L.Ok ==>
                  && st.state.allocs == L.Granting(u.allocs, x.bc.id, Flight(x), Some(SEAT), Seats(x)) && st.state.resources == u.resources && Sound(st.state)
                  && (st.state.claims == u.claims || st.state.claims == u.claims[x.bc.id := u.claims[x.bc.id].(status := Granted, resolved := Some(round))]))
  {
    hide Sound, L.RuleOp, L.RuleOps, L.Granting, L.HeldInGroup, Clean, TakenBy, Taken, GivenBy, L.Free, IsSeat, GrantOf, Disputing;
    CleanSeats(s, u, xs, x);
    ClearedCells(s, u, xs, x);
    SeatsNoDup(x);
    RuleOpsSound(u, GrantPart(x.bc, x.n), ruling, round);
    if x.n <= 0 {
      NothingToGrant(u, x.bc.id, Flight(x), ruling, round);
    } else {
      GrantAccepted(u, x.bc, x.n, ruling, round);
      OneOp(u, GrantOf(x.bc, x.n), ruling, round);
    }
  }

  lemma NothingToGrant(u: L.State, id: nat, r: Name, ruling: nat, round: nat)
    ensures L.RuleOps(u, [], ruling, round).out == L.Ok && L.RuleOps(u, [], ruling, round).state == u
    ensures L.Granting(u.allocs, id, r, Some(SEAT), []) == u.allocs
  {}

  lemma OneOp(s: L.State, op: RulingOp, ruling: nat, round: nat)
    ensures L.RuleOps(s, [op], ruling, round).out == L.RuleOp(s, op, ruling, round).out
    ensures L.RuleOp(s, op, ruling, round).out == L.Ok ==> L.RuleOps(s, [op], ruling, round).state == L.RuleOp(s, op, ruling, round).state
  {
    hide L.RuleOp;
    assert [op][1..] == [];
  }

  ghost predicate DisputesBlocked(s: L.State, xs: seq<Turn>) {
    forall i :: Disputing(xs, i) && i in s.claims ==> s.claims[i].status == Blocked
  }

  lemma VictimsKnown(s: L.State, t: L.State, xs: seq<Turn>, x: Turn)
    requires ClaimsKept(s, t, xs) && Holding(s, Flight(x), x.victims, ClaimsOf(x.victims))
    ensures forall v :: v in x.victims ==> v.claim in t.claims && t.claims[v.claim].proposal.resource == Flight(x)
  {
    hide Disputing;
    HoldingMeans(s, Flight(x), x.victims);
  }

  /** The ops of one turn are all accepted if and only if the turn is clean, and then ledger and desk still agree. */
  lemma TurnRuns(s: L.State, view: AgentView, pax: Roster, t: L.State, d: Desk, xs: seq<Turn>, bc: ClaimView, ruling: nat, round: nat)
    requires Sound(s) && Shown(view, s) && RF.SeatsGrouped(s) && Tracks(s, t, d, xs) && DisputesBlocked(s, xs)
    requires Waits(s, bc) && !Disputing(xs, bc.id)
    ensures var (x, st) := (TurnOf(d, pax, bc, view.granted), L.RuleOps(t, OpsOf(TurnOf(d, pax, bc, view.granted)), ruling, round));
            && (st.out == L.Ok <==> Clean(s, xs, x))
            && (st.out == L.Ok ==> Tracks(s, st.state, Serve(d, pax, bc, view.granted), xs + [x]))
  {
    hide *;
    var x := TurnOf(d, pax, bc, view.granted);
    var revokes, grant := RevokeOps(x.victims, D.SortedNats(ClaimsOf(x.victims))), GrantPart(bc, x.n);
    TurnIs(d, pax, bc, view.granted);
    FlightIs(x);
    ChosenHold(s, view, d, pax, bc);
    TracksCells(s, t, d, xs);
    VictimsKnown(s, t, xs, x);
    RevokesAccepted(t, Flight(x), x.victims, ruling, round);
    BlockedMeans(s, xs);
    HoldingIffUntaken(s, t, d, xs, x);
    if Taken(x) !! TakenBy(xs) {
      var u := L.RuleOps(t, revokes, ruling, round).state;
      RevokesClear(s, t, d, xs, x, ruling, round);
      RuleOpsConcat(t, revokes, grant, ruling, round);
      ClearedCells(s, u, xs, x);
      RoomForSeats(s, t, u, d, pax, bc, view.granted);
      SoundParts(s);
      GrantRound(s, u, xs, x, ruling, round);
      if Clean(s, xs, x) {
        var v := L.RuleOps(u, grant, ruling, round).state;
        GrantDone(s, u, v, xs, x, round);
        SeatsNoDup(x);
        SeatsVacant(s, u, xs, x);
        CountsNext(t, u, v, d, pax, bc, view.granted);
        IsTracked(s, v, Serve(d, pax, bc, view.granted), xs + [x]);
      }
    } else {
      RuleOpsFail(t, revokes, grant, ruling, round);
      if Clean(s, xs, x) { CleanUntaken(s, xs, x); }
    }
  }

  lemma FlightIs(x: Turn)
    ensures Flight(x) == x.bc.claim.proposal.resource
  {}

  lemma BlockedMeans(s: L.State, xs: seq<Turn>)
    requires DisputesBlocked(s, xs)
    ensures forall i :: Disputing(xs, i) && i in s.claims ==> s.claims[i].status == Blocked
  {}

  lemma SoundParts(s: L.State)
    requires Sound(s)
    ensures Backed(s) && Filed(s)
  {}

  lemma IsTracked(s: L.State, t: L.State, d: Desk, xs: seq<Turn>)
    requires Sound(t) && t.resources == s.resources && t.allocs == (s.allocs - TakenBy(xs)) + GivenBy(xs) && ClaimsKept(s, t, xs) && Counts(t, d)
    requires forall k :: k in GivenBy(xs) && k in s.allocs ==> k in TakenBy(xs)
    ensures Tracks(s, t, d, xs)
  {}

  /** Revoked and free seats cover what the turn grants. */
  lemma RoomForSeats(s: L.State, t: L.State, u: L.State, d: Desk, pax: Roster, bc: ClaimView, granted: seq<ClaimView>)
    requires var x := TurnOf(d, pax, bc, granted);
             && Sound(s) && Waits(s, bc) && Counts(t, d) && t.resources == s.resources && u.resources == t.resources
             && u.allocs == t.allocs - Taken(x) && DistinctPids(x.victims) && Holding(t, Flight(x), x.victims, ClaimsOf(x.victims))
    ensures var x := TurnOf(d, pax, bc, granted);
            Flight(x) in s.resources && Flight(x) in u.resources && (Seats(x) != [] ==> |Seats(x)| <= L.Free(u, Flight(x)))
  {
    hide Holding, DistinctPids, Taken, TurnOf, L.Used, RoomOn, IsSeat, Seats, Backed, Within, Exclusive, L.Free;
    var x := TurnOf(d, pax, bc, granted);
    RoomAfterTurn(d, pax, bc, granted, Flight(x));
    FreeAfterRevokes(t, u, x, Flight(x));
  }

  lemma SeatsVacant(s: L.State, u: L.State, xs: seq<Turn>, x: Turn)
    requires Cleared(s, u, xs, x) && Clean(s, xs, x) && RF.SeatsGrouped(s) && Waits(s, x.bc) && Taken(x) !! TakenBy(xs) && Filed(s)
    ensures forall b :: b in Seats(x) ==> (Flight(x), b) !in u.allocs
  {
    hide Sound, Taken, TakenBy, GivenBy, Seats, L.HeldInGroup, SeatedBy, Clean, ClaimsKept, IsSeat;
    CleanSeats(s, u, xs, x);
    forall b | b in Seats(x) ensures (Flight(x), b) !in u.allocs { RF.NotOnSeat(u, Flight(x), b); }
  }

  // ---------------------------------------------------------------- the whole queue

  /** Blocked seat claims, each once. */
  ghost predicate Queued(s: L.State, queue: seq<ClaimView>) {
    DistinctIds(queue) && forall v :: v in queue ==> Waits(s, v)
  }

  lemma QueuedPrefix(s: L.State, queue: seq<ClaimView>)
    requires queue != [] && Queued(s, queue)
    ensures Queued(s, queue[..|queue|-1]) && Waits(s, queue[|queue|-1])
  {
    hide Waits;
    assert forall v :: v in queue[..|queue|-1] ==> v in queue;
  }

  lemma TurnsOfQueue(s: L.State, d: Desk, pax: Roster, queue: seq<ClaimView>, granted: seq<ClaimView>)
    requires queue != [] && Queued(s, queue)
    ensures var xs := Turns(d, pax, queue[..|queue|-1], granted); DisputesBlocked(s, xs) && !Disputing(xs, queue[|queue|-1].id)
  {
    hide Turns, IsSeat;
    var before := queue[..|queue|-1];
    TurnsInOrder(d, pax, before, granted);
    assert forall i :: 0 <= i < |before| ==> before[i] == queue[i] && queue[i] in queue;
  }

  lemma Unturned(s: L.State, d: Desk, pax: Roster, queue: seq<ClaimView>, granted: seq<ClaimView>)
    requires queue != []
    ensures var (xs, before) := (Turns(d, pax, queue, granted), queue[..|queue|-1]);
            && xs == Turns(d, pax, before, granted) + [TurnOf(ServeAll(d, pax, before, granted), pax, queue[|queue|-1], granted)]
            && AllOps(xs) == AllOps(Turns(d, pax, before, granted)) + OpsOf(xs[|xs|-1]) && xs[..|xs|-1] == Turns(d, pax, before, granted)
            && ServeAll(d, pax, queue, granted) == Serve(ServeAll(d, pax, before, granted), pax, queue[|queue|-1], granted)
  {
    hide Serve, TurnOf, OpsOf;
  }

  lemma StartsTracked(s: L.State, view: AgentView)
    requires Sound(s) && Shown(view, s)
    ensures Tracks(s, s, FreshDesk(view), []) && AllClean(s, [])
  {
    hide Sound, L.Free, L.IdsWith;
    assert s.allocs - {} + map[] == s.allocs;
  }

  lemma {:induction false} QueueRuns(s: L.State, view: AgentView, pax: Roster, queue: seq<ClaimView>, ruling: nat, round: nat)
    requires Sound(s) && Shown(view, s) && RF.SeatsGrouped(s) && Queued(s, queue)
    ensures var (xs, d) := (Turns(FreshDesk(view), pax, queue, view.granted), ServeAll(FreshDesk(view), pax, queue, view.granted));
            var st := L.RuleOps(s, AllOps(xs), ruling, round);
            && (st.out == L.Ok <==> AllClean(s, xs)) && (st.out == L.Ok ==> Tracks(s, st.state, d, xs))
    decreases |queue|
  {
    hide *;
    var d := FreshDesk(view);
    if queue == [] {
      StartsTracked(s, view);
      EmptyQueue(s, d, pax, view.granted, ruling, round);
    } else {
      var before, xs := queue[..|queue|-1], Turns(d, pax, queue, view.granted);
      var ys, bc := Turns(d, pax, before, view.granted), queue[|queue|-1];
      QueuedPrefix(s, queue);
      QueueRuns(s, view, pax, before, ruling, round);
      TurnsOfQueue(s, d, pax, queue, view.granted);
      Unturned(s, d, pax, queue, view.granted);
      AllCleanMore(s, xs);
      var mid := L.RuleOps(s, AllOps(ys), ruling, round);
      if mid.out == L.Ok {
        RuleOpsConcat(s, AllOps(ys), OpsOf(xs[|xs|-1]), ruling, round);
        TurnRuns(s, view, pax, mid.state, ServeAll(d, pax, before, view.granted), ys, bc, ruling, round);
      } else {
        RuleOpsFail(s, AllOps(ys), OpsOf(xs[|xs|-1]), ruling, round);
      }
    }
  }

  lemma EmptyQueue(s: L.State, d: Desk, pax: Roster, granted: seq<ClaimView>, ruling: nat, round: nat)
    ensures Turns(d, pax, [], granted) == [] && ServeAll(d, pax, [], granted) == d && AllOps([]) == []
    ensures L.RuleOps(s, [], ruling, round).out == L.Ok && L.RuleOps(s, [], ruling, round).state == s
  {}

  // ---------------------------------------------------------------- the ruling

  /** What the ruling does for the disputed claims, in the order it serves them. */
  function RulingTurns(view: AgentView, pax: Roster, dl: Deadlock): seq<Turn> {
    Turns(FreshDesk(view), pax, SortBy(Disputed(view.blocked, dl), ByProtection(pax)), view.granted)
  }

  lemma {:induction false} DisputedDistinct(blocked: seq<ClaimView>, dl: Deadlock)
    requires DistinctIds(blocked)
    ensures DistinctIds(Disputed(blocked, dl)) && forall v :: v in Disputed(blocked, dl) ==> v in blocked && IsSeat(v.claim.proposal.resource)
    decreases |blocked|
  {
    hide IsSeat;
    if blocked != [] {
      var n := |blocked| - 1;
      DisputedDistinct(blocked[..n], dl);
      var rest := Disputed(blocked[..n], dl);
      assert forall k :: 0 <= k < |rest| ==> rest[k] in rest;
      assert forall v :: v in blocked[..n] ==> v.id != blocked[n].id;
    }
  }

  lemma ShownDistinct(s: L.State, view: AgentView)
    requires Shown(view, s)
    ensures DistinctIds(view.blocked)
  {
    hide L.IdsWith, L.HolderList;
  }

  lemma SortedQueue(vs: seq<ClaimView>, le: (ClaimView, ClaimView) -> bool)
    requires DistinctIds(vs)
    ensures DistinctIds(SortBy(vs, le)) && forall v :: v in SortBy(vs, le) <==> v in vs
  {
    var q := SortBy(vs, le);
    SortByElems(vs, le);
    assert NoDup(vs);
    forall i, j | 0 <= i < j < |q| ensures q[i].id != q[j].id {
      assert q[i] in vs && q[j] in vs && q[i] != q[j];
    }
  }

  lemma RulingQueued(s: L.State, view: AgentView, pax: Roster, dl: Deadlock)
    requires Shown(view, s)
    ensures Queued(s, SortBy(Disputed(view.blocked, dl), ByProtection(pax)))
  {
    hide Shown, Disputed, SortBy, ByProtection, IsSeat;
    ShownDistinct(s, view);
    DisputedDistinct(view.blocked, dl);
    SortedQueue(Disputed(view.blocked, dl), ByProtection(pax));
    forall v | v in SortBy(Disputed(view.blocked, dl), ByProtection(pax)) ensures Waits(s, v) { BlockedAt(s, view, v); }
  }

  /**
   * For any number of disputed claims: the ruling's ops are all accepted, in order, by the ledger the view came from if
   * and only if every turn is clean: no holder's seat is taken twice, and nobody is given a seat who has one
   * by then. And if they are, the ledger ends with exactly the taken seats taken and the given ones given.
   */
  lemma SeatRulingRunsIffClean(s: L.State, view: AgentView, pax: Roster, dl: Deadlock, ruling: nat, round: nat)
    requires Sound(s) && Shown(view, s) && RF.SeatsGrouped(s)
    ensures var (xs, st) := (RulingTurns(view, pax, dl), L.RuleOps(s, SeatsRuling(view, pax, dl).ops, ruling, round));
            && (st.out == L.Ok <==> AllClean(s, xs))
            && (st.out == L.Ok ==> Sound(st.state) && st.state.allocs == (s.allocs - TakenBy(xs)) + GivenBy(xs))
  {
    hide *;
    var queue := SortBy(Disputed(view.blocked, dl), ByProtection(pax));
    RulingQueued(s, view, pax, dl);
    QueueRuns(s, view, pax, queue, ruling, round);
    ServeAllIsTurns(FreshDesk(view), pax, queue, view.granted);
    RulingIs(view, pax, dl);
    var st := L.RuleOps(s, SeatsRuling(view, pax, dl).ops, ruling, round);
    if st.out == L.Ok { TracksCells(s, st.state, ServeAll(FreshDesk(view), pax, queue, view.granted), RulingTurns(view, pax, dl)); }
  }

  lemma RulingIs(view: AgentView, pax: Roster, dl: Deadlock)
    ensures var queue := SortBy(Disputed(view.blocked, dl), ByProtection(pax));
            && SeatsRuling(view, pax, dl).ops == ServeAll(FreshDesk(view), pax, queue, view.granted).ops
            && RulingTurns(view, pax, dl) == Turns(FreshDesk(view), pax, queue, view.granted)
    ensures FreshDesk(view).ops == [] && forall ops: seq<RulingOp> :: [] + ops == ops
  {
    hide ServeAll, Turns, SortBy, Disputed, SeatCitations, Dismissed;
  }

  // ---------------------------------------------------------------- claims on different flights

  /** The disputed claims are on different flights, for different people, none of whom has a seat. */
  ghost predicate SeparateDisputes(s: L.State, vs: seq<ClaimView>) {
    && (forall i, j :: 0 <= i < j < |vs| ==> vs[i].claim.proposal.resource != vs[j].claim.proposal.resource)
    && (forall i, j, b :: 0 <= i < j < |vs| && b in vs[i].claim.proposal.beneficiaries ==> b !in vs[j].claim.proposal.beneficiaries)
    && (forall v, b :: v in vs && b in v.claim.proposal.beneficiaries ==> !L.HeldInGroup(s.allocs, SEAT, b))
  }

  lemma SeparateSorted(s: L.State, vs: seq<ClaimView>, le: (ClaimView, ClaimView) -> bool)
    requires SeparateDisputes(s, vs) && DistinctIds(vs)
    ensures SeparateDisputes(s, SortBy(vs, le))
  {
    hide L.HeldInGroup;
    var q := SortBy(vs, le);
    SortedQueue(vs, le);
    SortByElems(vs, le);
    hide SortBy;
    forall i, j | 0 <= i < j < |q|
      ensures q[i].claim.proposal.resource != q[j].claim.proposal.resource
      ensures forall b :: b in q[i].claim.proposal.beneficiaries ==> b !in q[j].claim.proposal.beneficiaries
    {
      assert q[i] in vs && q[j] in vs && q[i].id != q[j].id;
      var a :| 0 <= a < |vs| && vs[a] == q[i];
      var b :| 0 <= b < |vs| && vs[b] == q[j];
      assert a < b || b < a;
    }
  }

  lemma {:induction false} TakenOnFlights(xs: seq<Turn>, k: L.Cell)
    requires k in TakenBy(xs)
    ensures exists i :: 0 <= i < |xs| && Flight(xs[i]) == k.0
    decreases |xs|
  {
    hide Flight, PidSet;
    var n := |xs| - 1;
    if k in TakenBy(xs[..n]) {
      TakenOnFlights(xs[..n], k);
      var i :| 0 <= i < n && Flight(xs[..n][i]) == k.0;
      assert xs[i] == xs[..n][i];
    } else {
      assert Flight(xs[n]) == k.0;
    }
  }

  lemma {:induction false} SeatedAreNamed(xs: seq<Turn>, b: Name)
    requires b in SeatedBy(xs)
    ensures exists i :: 0 <= i < |xs| && b in xs[i].bc.claim.proposal.beneficiaries
    decreases |xs|
  {
    var n := |xs| - 1;
    if b in SeatedBy(xs[..n]) {
      SeatedAreNamed(xs[..n], b);
      var i :| 0 <= i < n && b in xs[..n][i].bc.claim.proposal.beneficiaries;
      assert xs[i] == xs[..n][i];
    } else {
      assert b in xs[n].bc.claim.proposal.beneficiaries;
    }
  }

  lemma SeatsAreNamed(x: Turn)
    ensures forall b :: b in Seats(x) ==> b in x.bc.claim.proposal.beneficiaries
  {}

  lemma StillUnseated(s: L.State, cells: set<L.Cell>, b: Name)
    requires !L.HeldInGroup(s.allocs, SEAT, b)
    ensures !L.HeldInGroup(s.allocs - cells, SEAT, b)
  {
    var a := s.allocs - cells;
    assert forall k :: k in a.Keys ==> k in s.allocs.Keys && a[k] == s.allocs[k];
  }

  lemma SeparateIsClean(s: L.State, xs: seq<Turn>, queue: seq<ClaimView>, i: nat)
    requires SeparateDisputes(s, queue) && |xs| == |queue| && (forall j :: 0 <= j < |xs| ==> xs[j].bc == queue[j]) && i < |xs|
    ensures Clean(s, xs[..i], xs[i])
  {
    hide L.HeldInGroup, TakenBy, SeatedBy, Taken, Seats;
    var before, x := xs[..i], xs[i];
    forall k | k in Taken(x) ensures k !in TakenBy(before) {
      TakenMeans(x, k.0, k.1);
      if k in TakenBy(before) { TakenOnFlights(before, k); }
    }
    SeatsAreNamed(x);
    forall b | b in Seats(x) ensures !L.HeldInGroup(s.allocs - (TakenBy(before) + Taken(x)), SEAT, b) && b !in SeatedBy(before) {
      assert queue[i] in queue;
      StillUnseated(s, TakenBy(before) + Taken(x), b);
      if b in SeatedBy(before) { SeatedAreNamed(before, b); }
    }
  }

  /** Claims on different flights, for different people without a seat: the ruling's ops are all accepted. */
  lemma SeparateDisputesRun(s: L.State, view: AgentView, pax: Roster, dl: Deadlock, ruling: nat, round: nat)
    requires Sound(s) && Shown(view, s) && RF.SeatsGrouped(s) && SeparateDisputes(s, Disputed(view.blocked, dl))
    ensures L.RuleOps(s, SeatsRuling(view, pax, dl).ops, ruling, round).out == L.Ok
  {
    hide *;
    var queue := SortBy(Disputed(view.blocked, dl), ByProtection(pax));
    var xs := RulingTurns(view, pax, dl);
    ShownDistinct(s, view);
    DisputedDistinct(view.blocked, dl);
    SeparateSorted(s, Disputed(view.blocked, dl), ByProtection(pax));
    TurnsInOrder(FreshDesk(view), pax, queue, view.granted);
    RulingIs(view, pax, dl);
    forall i | 0 <= i < |xs| ensures Clean(s, xs[..i], xs[i]) { SeparateIsClean(s, xs, queue, i); }
    EveryTurnClean(s, xs);
    SeatRulingRunsIffClean(s, view, pax, dl, ruling, round);
  }

  lemma EveryTurnClean(s: L.State, xs: seq<Turn>)
    requires forall i :: 0 <= i < |xs| ==> Clean(s, xs[..i], xs[i])
    ensures AllClean(s, xs)
  {
    hide Clean;
  }
}
