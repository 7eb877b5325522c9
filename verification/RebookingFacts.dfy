/** The rebooking desk's seat bids, opened back to back on the ledger they were drawn up from, are all granted. */
module RebookingFacts {
  import opened Order
  import opened Schemas
  import opened LedgerFacts
  import opened Rounds
  import opened RoundFacts
  import opened Scenario
  import opened Rebooking
  import L = Ledger

  // ---------------------------------------------------------------- opening bids

  /** The ledger after the bids were opened in order. */
  function OpenAll(s: L.State, c: Crypto, bids: seq<Bid>, round: nat): L.State
    decreases |bids|
  {
    if bids == [] then s
    else
      var b := bids[|bids|-1];
      L.Reveal(OpenAll(s, c, bids[..|bids|-1], round), c, b.commitment, b.proposal, b.nonce, round).state
  }

  ghost predicate Added(s: L.State, t: L.State, p: Proposal) {
    && t.resources == s.resources
    && (forall k :: k in s.allocs ==> k in t.allocs && t.allocs[k] == s.allocs[k])
    && (forall k :: k in t.allocs && k !in s.allocs ==> k.0 == p.resource && k.1 in p.beneficiaries)
    && (forall i :: i in s.claims ==> i in t.claims && t.claims[i] == s.claims[i])
  }

  lemma InsertAdds(s: L.State, id: nat, p: Proposal, round: nat, m: Option<nat>)
    requires id !in s.claims
    ensures Added(s, L.InsertAndApply(s, id, p, round, m).state, p)
  {
    hide L.Free, L.HeldInGroup;
  }

  /** Opening a bid only ever adds: its own claim, and units for its own beneficiaries on its own resource. */
  lemma RevealAdds(s: L.State, c: Crypto, b: Bid, round: nat)
    requires Sound(s)
    ensures Added(s, L.Reveal(s, c, b.commitment, b.proposal, b.nonce, round).state, b.proposal)
    ensures Sound(L.Reveal(s, c, b.commitment, b.proposal, b.nonce, round).state)
  {
    hide L.InsertAndApply, Evolves, Added, Sound;
    RevealGood(s, c, b.commitment, b.proposal, b.nonce, round);
    FreshId(s);
    SameAdded(s, b.proposal);
    if L.Revealable(s, b.commitment, b.proposal) && VerifyCommitment(c, b.proposal, b.nonce, s.commits[b.commitment].digest) {
      var s1 := L.AcceptReveal(s, b.commitment, b.nonce);
      InsertAdds(s1, s.claimSeq + 1, b.proposal, round, Some(b.commitment));
      AddedFrom(s, s1, L.InsertAndApply(s1, s.claimSeq + 1, b.proposal, round, Some(b.commitment)).state, b.proposal);
    } else if L.Revealable(s, b.commitment, b.proposal) {
      AddedFrom(s, L.RejectReveal(s, b.commitment, b.proposal, b.nonce).state, L.RejectReveal(s, b.commitment, b.proposal, b.nonce).state, b.proposal);
    }
  }

  lemma FreshId(s: L.State)
    requires Sound(s)
    ensures s.claimSeq + 1 !in s.claims
  {
    hide Within, Exclusive, Backed;
  }

  lemma SameAdded(s: L.State, p: Proposal)
    ensures Added(s, s, p)
  {}

  lemma AddedFrom(s: L.State, s1: L.State, t: L.State, p: Proposal)
    requires s1.allocs == s.allocs && s1.resources == s.resources && s1.claims == s.claims && (Added(s1, t, p) || t == s1)
    ensures Added(s, t, p)
  {}

  /** What a ready bid does: its claim is filed under the next id. */
  lemma RevealFiles(s: L.State, c: Crypto, b: Bid, round: nat)
    requires Ready(c, s, b) && b.proposal.resource in s.resources
    ensures var (t, id) := (L.Reveal(s, c, b.commitment, b.proposal, b.nonce, round).state, s.claimSeq + 1);
            var att := L.TryAllocate(s, id, b.proposal.resource, s.resources[b.proposal.resource].group, b.proposal.beneficiaries);
            match att
            case Allocated(a) => t.allocs == a && id in t.claims && t.claims[id].status == Granted && t.claims[id].proposal == b.proposal
            case Violation => true
            case _ => t.allocs == s.allocs && id in t.claims && t.claims[id].status == Blocked && t.claims[id].proposal == b.proposal
  {
    hide L.Free, L.HeldInGroup, L.Granting, NoDup;
    var s1 := L.AcceptReveal(s, b.commitment, b.nonce);
    SameAttempt(s, s1, s.claimSeq + 1, b.proposal.resource, s.resources[b.proposal.resource].group, b.proposal.beneficiaries);
    hide L.TryAllocate;
  }

  lemma SameAttempt(s: L.State, t: L.State, id: nat, r: Name, g: Option<Name>, bens: seq<Name>)
    requires t.allocs == s.allocs && t.resources == s.resources && r in s.resources
    ensures L.TryAllocate(t, id, r, g, bens) == L.TryAllocate(s, id, r, g, bens)
  {}

  // ---------------------------------------------------------------- one seat bid

  /** A seat bid that will be granted: there is room, and nobody in it sits anywhere. */
  ghost predicate Grantable(s: L.State, p: Proposal) {
    && p.resource in s.resources && s.resources[p.resource].group == Some(SEAT)
    && |p.beneficiaries| <= L.Free(s, p.resource)
    && forall b :: b in p.beneficiaries ==> !L.HeldInGroup(s.allocs, SEAT, b)
  }

  lemma GrantableIsGranted(s: L.State, c: Crypto, b: Bid, round: nat)
    requires Sound(s) && Ready(c, s, b) && Grantable(s, b.proposal)
    ensures var (t, id) := (L.Reveal(s, c, b.commitment, b.proposal, b.nonce, round).state, s.claimSeq + 1);
            && id in t.claims && t.claims[id].status == Granted && t.claims[id].proposal == b.proposal
            && t.allocs == L.Granting(s.allocs, id, b.proposal.resource, Some(SEAT), b.proposal.beneficiaries)
  {
    hide L.Reveal, L.Free, L.HeldInGroup, L.Granting, Ready, Within, Exclusive, Filed;
    RevealFiles(s, c, b, round);
    var p := b.proposal;
    forall x | x in p.beneficiaries ensures (p.resource, x) !in s.allocs { NotOnSeat(s, p.resource, x); }
  }

  lemma NotOnSeat(s: L.State, r: Name, b: Name)
    requires Sound(s) && r in s.resources && s.resources[r].group == Some(SEAT) && !L.HeldInGroup(s.allocs, SEAT, b)
    ensures (r, b) !in s.allocs
  {
    hide Within, Exclusive, Filed;
  }

  /** A bid elsewhere, for other people, leaves a grantable bid grantable. */
  lemma StillGrantable(s: L.State, t: L.State, p: Proposal, q: Proposal)
    requires Sound(t) && Added(s, t, q) && Grantable(s, p) && q.resource != p.resource
    requires (forall b :: b in q.beneficiaries ==> b !in p.beneficiaries)
             || (q.resource in s.resources ==> s.resources[q.resource].group != Some(SEAT))
    ensures Grantable(t, p)
  {
    SameUsed(s, t, q, p.resource);
    forall b | b in p.beneficiaries ensures !L.HeldInGroup(t.allocs, SEAT, b) {
      forall k | k in t.allocs.Keys && k.1 == b ensures t.allocs[k].group != Some(SEAT) {
        if k in s.allocs {
          assert !L.HeldInGroup(s.allocs, SEAT, b);
        } else {
          UnitGroup(t, k);
        }
      }
    }
  }

  lemma UnitGroup(s: L.State, k: L.Cell)
    requires Sound(s) && k in s.allocs
    ensures k.0 in s.resources && s.allocs[k].group == s.resources[k.0].group
  {
    hide Within, Exclusive, Filed;
  }

  lemma SameUsed(s: L.State, t: L.State, q: Proposal, r: Name)
    requires Added(s, t, q) && r != q.resource
    ensures L.Used(t.allocs, r) == L.Used(s.allocs, r)
  {
    OnHas(s.allocs.Keys, r);
    OnHas(t.allocs.Keys, r);
    hide L.On;
    assert L.On(t.allocs.Keys, r) == L.On(s.allocs.Keys, r);
  }

  // ---------------------------------------------------------------- all the seat bids

  /** The bids of one desk: on different resources, for different people. */
  ghost predicate Apart(ps: seq<Proposal>) {
    && (forall j, k :: 0 <= j < k < |ps| ==> ps[j].resource != ps[k].resource)
    && (forall j, k, b :: 0 <= j < k < |ps| && b in ps[j].beneficiaries ==> b !in ps[k].beneficiaries)
  }

  /** Bids not opened yet. */
  ghost predicate Waiting(c: Crypto, s: L.State, bids: seq<Bid>, from: nat) {
    forall k :: from <= k < |bids| ==> Ready(c, s, bids[k]) && Grantable(s, bids[k].proposal)
  }

  lemma OpenKeepsReady(s: L.State, c: Crypto, b: Bid, other: Bid, round: nat)
    requires Ready(c, s, b) && Ready(c, s, other) && other.commitment != b.commitment
    ensures Ready(c, L.Reveal(s, c, b.commitment, b.proposal, b.nonce, round).state, other)
  {
    InsertKeepsDigests(L.AcceptReveal(s, b.commitment, b.nonce), s.claimSeq + 1, b.proposal, round, Some(b.commitment));
    hide L.InsertAndApply;
  }

  /** The k-th bid, opened after the first k, is granted. */
  ghost predicate GrantedAt(s: L.State, c: Crypto, bids: seq<Bid>, round: nat, k: nat)
    requires k < |bids|
  {
    var (before, after) := (OpenAll(s, c, bids[..k], round), OpenAll(s, c, bids[..k+1], round));
    var id := before.claimSeq + 1;
    && id in after.claims && after.claims[id].status == Granted && after.claims[id].proposal == bids[k].proposal
    && forall b :: b in bids[k].proposal.beneficiaries ==> (bids[k].proposal.resource, b) in after.allocs
  }

  lemma OpenAllStep(s: L.State, c: Crypto, bids: seq<Bid>, round: nat, n: nat)
    requires n < |bids|
    ensures var b := bids[n];
            OpenAll(s, c, bids[..n+1], round) == L.Reveal(OpenAll(s, c, bids[..n], round), c, b.commitment, b.proposal, b.nonce, round).state
  {
    hide L.Reveal;
    assert bids[..n+1][..n] == bids[..n];
  }

  lemma {:induction false} OpenedSoFar(s: L.State, c: Crypto, bids: seq<Bid>, round: nat, n: nat)
    requires Sound(s) && AllReady(c, s, bids) && Apart(ProposalsOf(bids)) && Waiting(c, s, bids, 0) && n <= |bids|
    ensures var t := OpenAll(s, c, bids[..n], round);
            Sound(t) && Waiting(c, t, bids, n) && forall k :: 0 <= k < n ==> GrantedAt(s, c, bids, round, k)
    decreases n
  {
    hide Sound, Grantable, Ready, L.Reveal, Added, OpenAll, GrantedAt;
    if n == 0 {
      OpenNone(s, c, bids, round);
    } else {
      OpenedSoFar(s, c, bids, round, n - 1);
      var b, u := bids[n-1], OpenAll(s, c, bids[..n-1], round);
      var t := L.Reveal(u, c, b.commitment, b.proposal, b.nonce, round).state;
      OpenAllStep(s, c, bids, round, n - 1);
      RevealAdds(u, c, b, round);
      forall k | n <= k < |bids| ensures Ready(c, t, bids[k]) && Grantable(t, bids[k].proposal) {
        OpenKeepsReady(u, c, b, bids[k], round);
        assert ProposalsOf(bids)[n-1] == b.proposal && ProposalsOf(bids)[k] == bids[k].proposal;
        StillGrantable(u, t, bids[k].proposal, b.proposal);
      }
      LastGranted(s, c, bids, round, n - 1);
    }
  }

  lemma OpenNone(s: L.State, c: Crypto, bids: seq<Bid>, round: nat)
    ensures OpenAll(s, c, bids[..0], round) == s
  {}

  lemma LastGranted(s: L.State, c: Crypto, bids: seq<Bid>, round: nat, k: nat)
    requires k < |bids| && Sound(OpenAll(s, c, bids[..k], round))
    requires Ready(c, OpenAll(s, c, bids[..k], round), bids[k]) && Grantable(OpenAll(s, c, bids[..k], round), bids[k].proposal)
    ensures GrantedAt(s, c, bids, round, k)
  {
    hide Sound, Grantable, Ready, L.Reveal, OpenAll;
    OpenAllStep(s, c, bids, round, k);
    GrantableIsGranted(OpenAll(s, c, bids[..k], round), c, bids[k], round);
  }

  // ---------------------------------------------------------------- the desk's bids are grantable

  /** Every seat resource is in the seat group. */
  ghost predicate SeatsGrouped(s: L.State) {
    forall r :: r in s.resources && IsSeat(r) ==> s.resources[r].group == Some(SEAT)
  }

  lemma SeatedIsHeld(w: World, round: nat, b: Name)
    requires Sound(w.ledger) && L.HeldInGroup(w.ledger.allocs, SEAT, b)
    ensures b in Seated(ViewFor(w, NAME, round))
  {
    hide Sound, ViewFor, L.Holders, L.HolderList;
    var s, view := w.ledger, ViewFor(w, NAME, round);
    var k :| k in s.allocs.Keys && k.1 == b && s.allocs[k].group == Some(SEAT);
    CellShown(w, round, k);
    var v :| v in view.granted && b in v.holders && GroupOn(view, v.claim.proposal.resource) == Some(SEAT);
    hide GroupOn;
  }

  /** Every allocation shows in the view, under its claim. */
  lemma CellShown(w: World, round: nat, k: L.Cell)
    requires Sound(w.ledger) && k in w.ledger.allocs
    ensures var view := ViewFor(w, NAME, round);
            exists v :: v in view.granted && k.1 in v.holders && GroupOn(view, v.claim.proposal.resource) == w.ledger.allocs[k].group
  {
    hide Within, Exclusive, Filed, Mine, ContestsView;
    var s, id, ids := w.ledger, w.ledger.allocs[k].claim, L.IdsWith(w.ledger, Granted);
    assert id in ids;
    var i :| 0 <= i < |ids| && ids[i] == id;
    var v := ViewFor(w, NAME, round).granted[i];
    assert v in ViewFor(w, NAME, round).granted && k.1 in L.Holders(s.allocs, id) && k.1 in v.holders;
    hide L.IdsWith, L.Holders, L.Free;
  }

  lemma RightfulGrantable(d: Desk, w: World, round: nat, wv: Wave, taken: set<Name>, p: Proposal)
    requires Sound(w.ledger) && SeatsGrouped(w.ledger) && Rightful(d, ViewFor(w, NAME, round), wv, taken, p)
    requires wv.qty <= FreeOn(ViewFor(w, NAME, round), SeatOf(wv.flight))
    ensures Grantable(w.ledger, p)
  {
    hide Sound, L.HeldInGroup, Seated, Pending, L.Free, ContestsView, L.IdsWith, Mine, SeatOf, IsSeat;
    SeatOfInjective(wv.flight, wv.flight);
    var view := ViewFor(w, NAME, round);
    RightfulAvoids(d, view, wv, taken, p);
    forall b | b in p.beneficiaries ensures !L.HeldInGroup(w.ledger.allocs, SEAT, b) {
      if L.HeldInGroup(w.ledger.allocs, SEAT, b) { SeatedIsHeld(w, round, b); }
    }
  }

  // ---------------------------------------------------------------- whole rounds of bids

  ghost predicate DistinctFlights(ws: seq<Wave>) {
    forall i, j :: 0 <= i < j < |ws| ==> ws[i].flight != ws[j].flight
  }

  lemma {:induction false} WavesOnOwnFlights(d: Desk, view: AgentView, ws: seq<Wave>)
    ensures forall p :: p in ClaimWaves(d, view, ws) ==> exists w :: w in ws && p.resource == SeatOf(w.flight)
    decreases |ws|
  {
    hide SeatOf, Chosen;
    if ws != [] {
      var n := |ws| - 1;
      WavesOnOwnFlights(d, view, ws[..n]);
      assert ws == ws[..n] + [ws[n]];
    }
  }

  lemma {:induction false} WavesOnDistinctResources(d: Desk, view: AgentView, ws: seq<Wave>)
    requires DistinctFlights(ws)
    ensures forall i, j :: 0 <= i < j < |ClaimWaves(d, view, ws)| ==> ClaimWaves(d, view, ws)[i].resource != ClaimWaves(d, view, ws)[j].resource
    decreases |ws|
  {
    hide SeatOf, Chosen;
    if ws != [] {
      var n := |ws| - 1;
      var before := ClaimWaves(d, view, ws[..n]);
      WavesOnDistinctResources(d, view, ws[..n]);
      WavesOnOwnFlights(d, view, ws[..n]);
      forall p | p in before ensures p.resource != SeatOf(ws[n].flight) {
        var w :| w in ws[..n] && p.resource == SeatOf(w.flight);
        SeatOfInjective(w.flight, ws[n].flight);
      }
      LastApart(before, ClaimWave(d, view, ws[n], NamedIn(before)), SeatOf(ws[n].flight));
    }
  }

  lemma LastApart(a: seq<Proposal>, b: seq<Proposal>, r: Name)
    requires |b| <= 1 && (forall p :: p in b ==> p.resource == r) && (forall p :: p in a ==> p.resource != r)
    requires forall i, j :: 0 <= i < j < |a| ==> a[i].resource != a[j].resource
    ensures forall i, j :: 0 <= i < j < |a + b| ==> (a + b)[i].resource != (a + b)[j].resource
  {
    assert forall k :: 0 <= k < |a| ==> a[k] in a;
    assert b != [] ==> b[0] in b;
  }

  lemma {:induction false} FillFlights(view: AgentView, flights: seq<Name>)
    requires NoDup(flights)
    ensures DistinctFlights(FillWaves(view, flights))
    ensures forall w :: w in FillWaves(view, flights) ==> w.flight in flights && w.qty == FreeOn(view, SeatOf(w.flight))
    decreases |flights|
  {
    hide SeatOf, FreeOn;
    if flights != [] {
      FillFlights(view, flights[1..]);
      assert flights[0] !in flights[1..];
      var rest := FillWaves(view, flights[1..]);
      assert forall k :: 0 <= k < |rest| ==> rest[k] in rest;
    }
  }

  lemma LateFlightsDiffer()
    ensures NoDup(LATE_FLIGHTS) && "QW441" != "QW519"
  {
    assert "QW519"[2] == '5' && "QW602"[2] == '6' && "QW338"[2] == '3' && "QW258"[2] == '2' && "QW777"[2] == '7' && "QW441"[2] == '4';
  }

  /** Outside round 2 no wave asks for more than is free, and no flight comes up twice. */
  lemma WavesFit(view: AgentView)
    requires view.round != 2
    ensures DistinctFlights(Waves(view)) && forall w :: w in Waves(view) ==> w.qty <= FreeOn(view, SeatOf(w.flight))
  {
    LateFlightsDiffer();
    hide FreeOn, SeatOf, FillWaves;
    FillFlights(view, LATE_FLIGHTS);
  }

  /** The desk's seat bids, opened from any point with the ledger as it was for them, are all granted. */
  lemma SeatBidsFrom(d: Desk, w: World, round: nat, c: Crypto, s: L.State, bids: seq<Bid>)
    requires Sound(w.ledger) && SeatsGrouped(w.ledger) && round != 2
    requires Sound(s) && s.allocs == w.ledger.allocs && s.resources == w.ledger.resources && AllReady(c, s, bids)
    requires ProposalsOf(bids) == ClaimWaves(d, ViewFor(w, NAME, round), Waves(ViewFor(w, NAME, round)))
    ensures Waiting(c, s, bids, 0) && Apart(ProposalsOf(bids))
  {
    hide Sound, SeatsGrouped, Ready, ViewFor, Waves, ClaimWaves, Rightful, Grantable;
    var view := ViewFor(w, NAME, round);
    var ws := Waves(view);
    var ps := ClaimWaves(d, view, ws);
    RoundOfView(w, round);
    WavesFit(view);
    WavesAreBids(d, view, ws);
    WavesOnDistinctResources(d, view, ws);
    forall i | 0 <= i < |bids| ensures Ready(c, s, bids[i]) && Grantable(s, bids[i].proposal) {
      assert bids[i] in bids;
      var wv :| wv in ws && Rightful(d, view, wv, NamedIn(ps[..i]), ps[i]);
      RightfulGrantable(d, w, round, wv, NamedIn(ps[..i]), ps[i]);
      SameGrantable(w.ledger, s, ps[i]);
    }
  }

  lemma FerryIsNoSeat(flight: Name)
    ensures FERRY != SeatOf(flight) && !IsSeat(FERRY)
  {
    assert FERRY[0] == 'c' && SeatOf(flight)[0] == 's' && SEAT_PREFIX[0] == 's';
  }

  lemma {:induction false} OpenAllHead(s: L.State, c: Crypto, bids: seq<Bid>, round: nat)
    requires bids != []
    ensures var b := bids[0];
            OpenAll(s, c, bids, round) == OpenAll(L.Reveal(s, c, b.commitment, b.proposal, b.nonce, round).state, c, bids[1..], round)
    decreases |bids|
  {
    hide L.Reveal;
    var n := |bids| - 1;
    if n > 0 {
      OpenAllHead(s, c, bids[..n], round);
      assert bids[..n][1..] == bids[1..][..n-1];
    }
  }

  /** Opening a bid first does not change what comes of the others. */
  lemma GrantedLater(s: L.State, c: Crypto, bids: seq<Bid>, round: nat, k: nat)
    requires bids != [] && k < |bids| - 1
    requires var b := bids[0]; GrantedAt(L.Reveal(s, c, b.commitment, b.proposal, b.nonce, round).state, c, bids[1..], round, k)
    ensures GrantedAt(s, c, bids, round, k + 1)
  {
    hide L.Reveal, OpenAll;
    OpenAllHead(s, c, bids[..k+1], round);
    OpenAllHead(s, c, bids[..k+2], round);
    assert bids[..k+1][1..] == bids[1..][..k] && bids[..k+2][1..] == bids[1..][..k+1];
  }

  /** The ferry bid takes no seat and moves nobody, so the seat bids behind it are as grantable as before. */
  lemma AfterFerry(s: L.State, c: Crypto, bids: seq<Bid>, round: nat)
    requires Sound(s) && AllReady(c, s, bids) && bids != [] && bids[0].proposal.resource == FERRY
    requires FERRY in s.resources ==> s.resources[FERRY].group != Some(SEAT)
    requires forall i :: 0 < i < |bids| ==> Grantable(s, bids[i].proposal) && IsSeat(bids[i].proposal.resource)
    ensures var b := bids[0]; var t := L.Reveal(s, c, b.commitment, b.proposal, b.nonce, round).state;
            Sound(t) && Waiting(c, t, bids[1..], 0) && AllReady(c, t, bids[1..])
  {
    hide Sound, Grantable, Ready, L.Reveal, Added, IsSeat;
    var b := bids[0];
    var t := L.Reveal(s, c, b.commitment, b.proposal, b.nonce, round).state;
    RevealAdds(s, c, b, round);
    FerryIsNoSeat("");
    forall i | 0 < i < |bids| ensures Ready(c, t, bids[i]) && Grantable(t, bids[i].proposal) {
      assert b in bids && bids[i] in bids;
      OpenKeepsReady(s, c, b, bids[i], round);
      StillGrantable(s, t, bids[i].proposal, b.proposal);
    }
  }

  /**
   * In rounds other than 2 every seat claim the desk makes is granted, when all its bids, the ferry's included, are
   * opened back to back on the ledger it looked at: `s` is that ledger with the bids sealed.
   */
  lemma SeatBidsGranted(d: Desk, w: World, round: nat, c: Crypto, s: L.State, bids: seq<Bid>, k: nat)
    requires Sound(w.ledger) && SeatsGrouped(w.ledger) && round != 2
    requires FERRY in w.ledger.resources ==> w.ledger.resources[FERRY].group != Some(SEAT)
    requires Sound(s) && s.allocs == w.ledger.allocs && s.resources == w.ledger.resources && AllReady(c, s, bids)
    requires ProposalsOf(bids) == Propose(d, ViewFor(w, NAME, round)) && k < |bids| && IsSeat(bids[k].proposal.resource)
    ensures GrantedAt(s, c, bids, round, k)
  {
    hide Sound, SeatsGrouped, Ready, ViewFor, Waves, ClaimWaves, GrantedAt, Waiting, Grantable, IsSeat, L.Reveal, Apart, FerryProposal;
    var view := ViewFor(w, NAME, round);
    RoundOfView(w, round);
    if round != 1 {
      SeatBidsFrom(d, w, round, c, s, bids);
      OpenedSoFar(s, c, bids, round, |bids|);
    } else {
      var rest := bids[1..];
      assert ProposalsOf(bids)[0] == FerryProposal(d) && ProposalsOf(rest) == ClaimWaves(d, view, Waves(view));
      FerryFirst(d);
      assert AllReady(c, s, rest) by { ReadyTail(c, s, bids); }
      SeatBidsFrom(d, w, round, c, s, rest);
      SeatsBehind(d, view, bids);
      WaitingMeans(c, s, bids);
      AfterFerry(s, c, bids, round);
      var b := bids[0];
      OpenedSoFar(L.Reveal(s, c, b.commitment, b.proposal, b.nonce, round).state, c, rest, round, |rest|);
      GrantedLater(s, c, bids, round, k - 1);
    }
  }

  lemma FerryFirst(d: Desk)
    ensures FerryProposal(d).resource == FERRY && !IsSeat(FERRY)
  {
    FerryIsNoSeat("");
  }

  lemma ReadyTail(c: Crypto, s: L.State, bids: seq<Bid>)
    requires bids != [] && AllReady(c, s, bids)
    ensures AllReady(c, s, bids[1..])
  {
    hide Ready;
  }

  lemma WaitingMeans(c: Crypto, s: L.State, bids: seq<Bid>)
    requires bids != [] && Waiting(c, s, bids[1..], 0)
    ensures forall i :: 0 < i < |bids| ==> Grantable(s, bids[i].proposal)
  {
    hide Ready, Grantable;
    forall i | 0 < i < |bids| ensures Grantable(s, bids[i].proposal) { assert bids[1..][i-1] == bids[i]; }
  }

  lemma SeatsBehind(d: Desk, view: AgentView, bids: seq<Bid>)
    requires bids != [] && ProposalsOf(bids[1..]) == ClaimWaves(d, view, Waves(view))
    ensures forall i :: 0 < i < |bids| ==> IsSeat(bids[i].proposal.resource)
  {
    hide SeatOf, IsSeat, Waves, ClaimWaves;
    var ps := ClaimWaves(d, view, Waves(view));
    WavesOnOwnFlights(d, view, Waves(view));
    forall i | 0 < i < |bids| ensures IsSeat(bids[i].proposal.resource) {
      assert ProposalsOf(bids[1..])[i-1] == bids[i].proposal && ps[i-1] in ps;
      var w :| w in Waves(view) && bids[i].proposal.resource == SeatOf(w.flight);
      SeatOfInjective(w.flight, w.flight);
    }
  }

  lemma RoundOfView(w: World, round: nat)
    ensures ViewFor(w, NAME, round).round == round
  {}

  lemma SameGrantable(s: L.State, t: L.State, p: Proposal)
    requires t.allocs == s.allocs && t.resources == s.resources && Grantable(s, p)
    ensures Grantable(t, p)
  {}
}
