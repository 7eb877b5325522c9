/** The engineered collision: rebooking fills QW441, the advocate's claim on it blocks, and a deadlock is recorded by round 2. */
module Impasse {
  import opened Order
  import opened Schemas
  import opened LedgerFacts
  import opened Rounds
  import opened RoundFacts
  import opened Scenario
  import opened RebookingFacts
  import R = Rebooking
  import A = Advocate
  import L = Ledger
  import D = Detector
  import B = Bank
  import V = Verify
  import Graph

  const QW441: Name := "QW441"

  function Seat441(): Name { SeatOf(QW441) }

  // ---------------------------------------------------------------- the cast and the stage

  /** Rebooking speaks first in round 1, the advocate is among the others, and nobody else goes by its name. */
  ghost predicate Cast(cfg: Config, d: R.Desk, t: A.Table, j: nat) {
    && 0 < j < |cfg.agents| && cfg.agents[0] == R.RebookingAgent(d) && cfg.agents[j] == A.AdvocateAgent(t)
    && forall i :: 0 <= i < |cfg.agents| && i != j ==> cfg.agents[i].name != A.NAME
  }

  /** Everyone who may legally take QW441. */
  function Legal441(d: R.Desk): set<Name> {
    set p | p in d.pax && QW441 in p.legal :: p.id
  }

  /** Nothing is allocated or claimed yet, and QW441 has at least one seat and at least as many takers. */
  ghost predicate Stage(w: World, d: R.Desk) {
    && w.ledger.allocs == map[] && w.ledger.claims == map[]
    && Seat441() in w.ledger.resources && SeatsGrouped(w.ledger)
    && 1 <= w.ledger.resources[Seat441()].capacity <= |Legal441(d)|
    && (FERRY in w.ledger.resources ==> w.ledger.resources[FERRY].group != Some(SEAT))
    && w.detector.threshold <= 2
  }

  /** The advocate waits for QW441. */
  ghost predicate Stuck(s: L.State, c: nat) {
    c in s.claims && s.claims[c].status == Blocked && s.claims[c].proposal.agent == A.NAME && s.claims[c].proposal.resource == Seat441()
  }

  // ---------------------------------------------------------------- round 1: what is bid

  lemma NobodyYet(w: World, round: nat)
    requires w.ledger.allocs == map[] && w.ledger.claims == map[]
    ensures var view := ViewFor(w, R.NAME, round); R.Seated(view) == {} && R.Pending(view) == {}
  {
    NoIds(w.ledger, Granted);
    NoIds(w.ledger, Blocked);
    hide L.IdsWith;
  }

  lemma NoIds(s: L.State, status: Status)
    requires s.claims == map[]
    ensures L.IdsWith(s, status) == []
  {
    var ids := L.IdsWith(s, status);
    NonEmptyHasElem(ids);
  }

  lemma EnoughTakers(d: R.Desk, w: World)
    requires Stage(w, d)
    ensures |R.Candidates(d, ViewFor(w, R.NAME, 1), QW441, {})| >= w.ledger.resources[Seat441()].capacity
  {
    hide ViewFor;
    var view := ViewFor(w, R.NAME, 1);
    NobodyYet(w, 1);
    var cands := R.Candidates(d, view, QW441, {});
    forall b | b in Legal441(d) ensures b in Elems(cands) {
      var p :| p in d.pax && QW441 in p.legal && p.id == b;
      assert R.OpenTo(view, p, QW441, {});
    }
    hide R.Candidates, R.OpenTo;
    NoDupCard(cands);
    CardMono(Legal441(d), Elems(cands));
  }

  lemma FreeNow(w: World, d: R.Desk)
    requires Stage(w, d)
    ensures L.Free(w.ledger, Seat441()) == w.ledger.resources[Seat441()].capacity
    ensures R.FreeOn(ViewFor(w, R.NAME, 1), Seat441()) == w.ledger.resources[Seat441()].capacity
  {
    hide L.IdsWith, Mine, ContestsView, Legal441;
    assert L.On(w.ledger.allocs.Keys, Seat441()) == {};
  }

  function FirstWave(w: World): R.Wave {
    R.WaveOn(ViewFor(w, R.NAME, 1), QW441, "earliest DEN arrival for highest connection-risk pax")
  }

  /** Rebooking opens with the ferry crew and a claim on every seat of QW441. */
  lemma OpeningBids(d: R.Desk, w: World)
    requires Stage(w, d)
    ensures var ps := R.Propose(d, ViewFor(w, R.NAME, 1));
            && |ps| >= 2 && ps[0] == R.FerryProposal(d)
            && ps[1].agent == R.NAME && ps[1].resource == Seat441()
            && |ps[1].beneficiaries| == w.ledger.resources[Seat441()].capacity
            && R.Rightful(d, ViewFor(w, R.NAME, 1), FirstWave(w), {}, ps[1])
  {
    hide R.Candidates, R.Rightful, Stage, R.FerryProposal, L.IdsWith, Mine, ContestsView, Legal441;
    var view := ViewFor(w, R.NAME, 1);
    var w0 := FirstWave(w);
    StageParts(w, d);
    EnoughTakers(d, w);
    FreeNow(w, d);
    RoundOfView(w, 1);
    hide ViewFor;
    assert |R.Chosen(d, view, w0, {})| == w0.qty;
    R.ChosenRightful(d, view, w0, {});
    hide R.Chosen;
    TwoWaves(d, view, w0);
  }

  lemma StageParts(w: World, d: R.Desk)
    requires Stage(w, d)
    ensures Seat441() in w.ledger.resources && w.ledger.resources[Seat441()].capacity >= 1
  {}

  lemma TwoWaves(d: R.Desk, view: AgentView, w0: R.Wave)
    requires view.round == 1 && w0 == R.WaveOn(view, QW441, "earliest DEN arrival for highest connection-risk pax") && R.Chosen(d, view, w0, {}) != []
    ensures var ps := R.Propose(d, view);
            |ps| >= 2 && ps[0] == R.FerryProposal(d) && ps[1] == R.SeatProposal(w0, R.Chosen(d, view, w0, {}))
  {
    hide R.Chosen, R.FerryProposal, R.SeatProposal;
    var ws := R.Waves(view);
    assert ws[0] == w0 && ws[..1] == [w0] && ws[..2] == ws;
    assert R.NamedIn([]) == {};
    assert ws[..1][..0] == [];
    assert R.ClaimWaves(d, view, []) == [];
    assert R.ClaimWaves(d, view, ws[..1]) == R.ClaimWave(d, view, w0, {});
  }

  lemma {:induction false} ProposalsSplit(w: World, a: seq<Agent>, b: seq<Agent>, round: nat)
    ensures ProposalsAt(w, a + b, round) == ProposalsAt(w, a, round) + ProposalsAt(w, b, round)
    decreases |a|
  {
    hide ViewFor;
    if a == [] {
      assert a + b == b;
    } else {
      assert (a + b)[0] == a[0] && (a + b)[1..] == a[1..] + b;
      ProposalsSplit(w, a[1..], b, round);
    }
  }

  /** The advocate's claim on QW441 comes after rebooking's. */
  lemma AdvocateBids(cfg: Config, d: R.Desk, t: A.Table, j: nat, w: World)
    requires Cast(cfg, d, t, j) && Stage(w, d)
    ensures var ps := ProposalsAt(w, cfg.agents, 1);
            && R.Propose(d, ViewFor(w, R.NAME, 1)) <= ps
            && exists k :: 2 <= k < |ps| && ps[k].agent == A.NAME && ps[k].resource == Seat441()
  {
    hide Stage, ViewFor, R.Propose, A.FirstRound;
    var agents := cfg.agents;
    OpeningBids(d, w);
    var first := agents[0].propose(ViewFor(w, agents[0].name, 1));
    assert first == R.Propose(d, ViewFor(w, R.NAME, 1));
    var head, tail := agents[..j], agents[j..];
    assert agents == head + tail && head[0] == agents[0] && tail[0] == agents[j];
    ProposalsSplit(w, head, tail, 1);
    var a := ProposalsAt(w, head, 1);
    assert first <= a;
    var own := agents[j].propose(ViewFor(w, agents[j].name, 1));
    AdvocateOpens(t, w);
    assert own <= ProposalsAt(w, tail, 1);
    var ps := ProposalsAt(w, agents, 1);
    assert ps[|a|] == own[0];
    assert first <= ps;
  }

  lemma AdvocateOpens(t: A.Table, w: World)
    ensures var own := A.AdvocateAgent(t).propose(ViewFor(w, A.NAME, 1));
            |own| == 2 && own[0].agent == A.NAME && own[0].resource == Seat441()
  {
    hide L.IdsWith, Mine, ContestsView;
    assert ViewFor(w, A.NAME, 1).round == 1;
    hide ViewFor;
    assert A.FirstRound(t)[0] in A.FirstRound(t);
  }

  // ---------------------------------------------------------------- round 1: what is granted and blocked

  /** The reveal phase opens the bids on the ledger, and touches neither bank nor detector. */
  lemma {:induction false} RevealOpens(cfg: Config, w: World, bids: seq<Bid>, round: nat)
    requires !RevealPhase(cfg, w, bids, round).aborted
    ensures var x := RevealPhase(cfg, w, bids, round).world;
            x.ledger == OpenAll(w.ledger, cfg.crypto, bids, round) && x.bank == w.bank && x.detector == w.detector && x.deadlocks == w.deadlocks
    decreases |bids|
  {
    hide L.Reveal;
    if bids != [] {
      OpenAllHead(w.ledger, cfg.crypto, bids, round);
      RevealOpens(cfg, OpenOne(cfg, w, bids[0], round), bids[1..], round);
    }
  }

  /** QW441 has no seat left. */
  ghost predicate Full441(s: L.State) {
    Sound(s) && Seat441() in s.resources && L.Free(s, Seat441()) <= 0
  }

  lemma StaysFull(s: L.State, t: L.State, p: Proposal)
    requires Full441(s) && Sound(t) && Added(s, t, p)
    ensures Full441(t)
  {
    hide Sound;
    OnHas(s.allocs.Keys, Seat441());
    OnHas(t.allocs.Keys, Seat441());
    hide L.On;
    CardMono(L.On(s.allocs.Keys, Seat441()), L.On(t.allocs.Keys, Seat441()));
  }

  lemma {:induction false} LaterReady(s: L.State, c: Crypto, bids: seq<Bid>, round: nat, n: nat, k: nat)
    requires AllReady(c, s, bids) && n <= k < |bids| && Sound(s)
    ensures Sound(OpenAll(s, c, bids[..n], round)) && Ready(c, OpenAll(s, c, bids[..n], round), bids[k])
    ensures OpenAll(s, c, bids[..n], round).resources == s.resources
    decreases n
  {
    hide Sound, Ready, L.Reveal, OpenAll;
    assert bids[k] in bids;
    if n == 0 {
      OpenNone(s, c, bids, round);
    } else {
      assert bids[n-1] in bids;
      LaterReady(s, c, bids, round, n - 1, k);
      LaterReady(s, c, bids, round, n - 1, n - 1);
      OpenAllStep(s, c, bids, round, n - 1);
      var u := OpenAll(s, c, bids[..n-1], round);
      RevealAdds(u, c, bids[n-1], round);
      OpenKeepsReady(u, c, bids[n-1], bids[k], round);
    }
  }

  /** After rebooking's first two bids QW441 is full. */
  lemma SecondBidFills(s: L.State, c: Crypto, bids: seq<Bid>, round: nat)
    requires Sound(s) && AllReady(c, s, bids) && |bids| >= 2 && Grantable(s, bids[1].proposal) && bids[1].proposal.resource == Seat441()
    requires bids[0].proposal.resource == FERRY && (FERRY in s.resources ==> s.resources[FERRY].group != Some(SEAT))
    requires Seat441() in s.resources && |bids[1].proposal.beneficiaries| == L.Free(s, Seat441())
    ensures Full441(OpenAll(s, c, bids[..2], round))
  {
    hide Sound, Ready, L.Reveal, OpenAll, Grantable, L.Granting, Added;
    assert bids[0] in bids;
    var p, u := bids[1].proposal, OpenAll(s, c, bids[..1], round);
    OpenNone(s, c, bids, round);
    OpenAllStep(s, c, bids, round, 0);
    OpenAllStep(s, c, bids, round, 1);
    RevealAdds(s, c, bids[0], round);
    FerryIsNoSeat(QW441);
    StillGrantable(s, u, p, bids[0].proposal);
    LaterReady(s, c, bids, round, 1, 1);
    GrantableIsGranted(u, c, bids[1], round);
    RevealAdds(u, c, bids[1], round);
    SameUsedNow(s, u, bids[0].proposal, Seat441());
    AddedResources(u, OpenAll(s, c, bids[..2], round), p);
    FilledUp(u, OpenAll(s, c, bids[..2], round), u.claimSeq + 1, p);
  }

  lemma AddedResources(s: L.State, t: L.State, p: Proposal)
    requires Added(s, t, p)
    ensures t.resources == s.resources
  {}

  lemma SameUsedNow(s: L.State, t: L.State, q: Proposal, r: Name)
    requires Added(s, t, q) && r != q.resource && r in s.resources
    ensures r in t.resources && L.Free(t, r) == L.Free(s, r)
  {
    hide L.Used;
    SameUsed(s, t, q, r);
  }

  lemma FilledUp(u: L.State, t: L.State, id: nat, p: Proposal)
    requires Sound(u) && Sound(t) && p.resource == Seat441() && Grantable(u, p) && |p.beneficiaries| == L.Free(u, Seat441()) && t.resources == u.resources
    requires t.allocs == L.Granting(u.allocs, id, p.resource, Some(SEAT), p.beneficiaries)
    ensures Full441(t)
  {
    hide Sound, L.Granting, L.HeldInGroup, L.Used;
    forall b | b in p.beneficiaries ensures (p.resource, b) !in u.allocs { NotOnSeat(u, p.resource, b); }
    GrantingUsed(u.allocs, id, p.resource, Some(SEAT), p.beneficiaries, p.resource);
  }

  lemma {:induction false} FullFromThenOn(s: L.State, c: Crypto, bids: seq<Bid>, round: nat, n: nat)
    requires Sound(s) && AllReady(c, s, bids) && 2 <= n <= |bids| && Full441(OpenAll(s, c, bids[..2], round))
    ensures Full441(OpenAll(s, c, bids[..n], round))
    decreases n
  {
    hide Sound, Ready, L.Reveal, OpenAll, Full441, Added, AllReady;
    if n > 2 {
      FullFromThenOn(s, c, bids, round, n - 1);
      var u := OpenAll(s, c, bids[..n-1], round);
      OpenAllStep(s, c, bids, round, n - 1);
      assert Sound(u) by { FullIsSound(u); }
      RevealAdds(u, c, bids[n-1], round);
      StaysFull(u, OpenAll(s, c, bids[..n], round), bids[n-1].proposal);
    }
  }

  lemma FullIsSound(s: L.State)
    requires Full441(s)
    ensures Sound(s)
  {}

  /** A bid for a full QW441 blocks. */
  lemma BidOnFullBlocks(s: L.State, c: Crypto, b: Bid, round: nat)
    requires Full441(s) && Ready(c, s, b) && b.proposal.agent == A.NAME && b.proposal.resource == Seat441()
    ensures Stuck(L.Reveal(s, c, b.commitment, b.proposal, b.nonce, round).state, s.claimSeq + 1)
  {
    hide Sound, L.Reveal, L.Free, L.HeldInGroup, Ready;
    RevealFiles(s, c, b, round);
  }

  lemma {:induction false} StuckStays(s: L.State, c: Crypto, bids: seq<Bid>, round: nat, k: nat, n: nat, id: nat)
    requires Sound(s) && AllReady(c, s, bids) && k <= n <= |bids| && Stuck(OpenAll(s, c, bids[..k], round), id)
    ensures Stuck(OpenAll(s, c, bids[..n], round), id)
    decreases n
  {
    hide Sound, L.Reveal, OpenAll, AllReady;
    if n > k {
      StuckStays(s, c, bids, round, k, n - 1, id);
      var u := OpenAll(s, c, bids[..n-1], round);
      OpenAllStep(s, c, bids, round, n - 1);
      LaterReady(s, c, bids, round, n - 1, n - 1);
      RevealAdds(u, c, bids[n-1], round);
    }
  }

  /** Whoever else bids in between, the advocate's claim on QW441 ends the phase blocked. */
  lemma AdvocateBlocks(s: L.State, c: Crypto, bids: seq<Bid>, round: nat, k: nat) returns (id: nat)
    requires Sound(s) && AllReady(c, s, bids) && |bids| >= 2 && Grantable(s, bids[1].proposal) && bids[1].proposal.resource == Seat441()
    requires bids[0].proposal.resource == FERRY && (FERRY in s.resources ==> s.resources[FERRY].group != Some(SEAT))
    requires Seat441() in s.resources && |bids[1].proposal.beneficiaries| == L.Free(s, Seat441())
    requires 2 <= k < |bids| && bids[k].proposal.agent == A.NAME && bids[k].proposal.resource == Seat441()
    ensures Stuck(OpenAll(s, c, bids, round), id)
  {
    hide Sound, Ready, L.Reveal, OpenAll, Grantable, Full441, Stuck, AllReady, L.Free;
    SecondBidFills(s, c, bids, round);
    FullFromThenOn(s, c, bids, round, k);
    LaterReady(s, c, bids, round, k, k);
    var u := OpenAll(s, c, bids[..k], round);
    BidOnFullBlocks(u, c, bids[k], round);
    OpenAllStep(s, c, bids, round, k);
    id := u.claimSeq + 1;
    StuckStays(s, c, bids, round, k + 1, |bids|, id);
    assert bids[..|bids|] == bids;
  }

  // ---------------------------------------------------------------- positions leave it waiting

  lemma ProcessKeepsStuck(w: World, pos: Position, round: nat, id: nat)
    requires Stuck(w.ledger, id) && (pos.agent != A.NAME || pos.stance != Yield)
    ensures Stuck(ProcessPosition(w, pos, round).world.ledger, id) && ProcessPosition(w, pos, round).world.detector == w.detector
    ensures ProcessPosition(w, pos, round).world.deadlocks == w.deadlocks
  {
    hide L.Deallocate, L.Targets, L.Holders, B.OpenContest, Stamp;
  }

  ghost predicate Meek(ps: seq<Position>) {
    forall p :: p in ps ==> p.agent != A.NAME || p.stance != Yield
  }

  lemma {:induction false} FileKeepsStuck(w: World, name: Name, ps: seq<Position>, round: nat, id: nat)
    requires Stuck(w.ledger, id) && (name != A.NAME || Meek(ps))
    ensures var x := FileAll(w, name, ps, round).world; Stuck(x.ledger, id) && x.detector == w.detector && x.deadlocks == w.deadlocks
    decreases |ps|
  {
    hide ProcessPosition, Stuck;
    if ps != [] && ps[0].agent == name {
      assert ps[0] in ps;
      var one := ProcessPosition(File(w, ps[0], round), ps[0], round);
      ProcessKeepsStuck(File(w, ps[0], round), ps[0], round, id);
      if !one.aborted { FileKeepsStuck(one.world, name, ps[1..], round, id); }
    }
  }

  /** Nobody but the advocate goes by its name, and it never yields. */
  ghost predicate MeekOrder(order: seq<Agent>) {
    forall a, v :: a in order && a.name == A.NAME ==> Meek(a.respond(v))
  }

  lemma {:induction false} PositionsKeepStuck(w: World, order: seq<Agent>, round: nat, id: nat)
    requires Stuck(w.ledger, id) && MeekOrder(order)
    ensures var x := PositionPhase(w, order, round).world; Stuck(x.ledger, id) && x.detector == w.detector && x.deadlocks == w.deadlocks
    decreases |order|
  {
    hide FileAll, Stuck, ViewFor, Meek;
    if order != [] {
      var ps := order[0].respond(ViewFor(w, order[0].name, round));
      assert order[0] in order;
      FileKeepsStuck(w, order[0].name, ps, round, id);
      var one := FileAll(w, order[0].name, ps, round);
      if !one.aborted { PositionsKeepStuck(one.world, order[1..], round, id); }
    }
  }

  lemma CastIsMeek(cfg: Config, d: R.Desk, t: A.Table, j: nat, round: nat)
    requires Cast(cfg, d, t, j) && round >= 1
    ensures MeekOrder(Rotated(cfg.agents, round))
  {
    var agents, order := cfg.agents, Rotated(cfg.agents, round);
    forall a, v | a in order && a.name == A.NAME ensures Meek(a.respond(v)) {
      assert a in agents;
      var i :| 0 <= i < |agents| && agents[i] == a;
      assert i == j;
      assert a.respond(v) == A.Respond(t, v);
      hide A.Respond;
    }
  }

  // ---------------------------------------------------------------- detection

  lemma StuckIsContested(s: L.State, xs: seq<D.Challenge>, id: nat)
    requires Stuck(s, id)
    ensures Seat441() in D.ContestedNow(s, xs)
  {
    assert D.IsBlocked(s, id);
  }

  /** A contested resource at the threshold is reported, unless a cycle covers it or its key has fired before. */
  lemma {:induction false} FiresOrFired(d: D.State, s: L.State, xs: seq<D.Challenge>, rs: seq<Name>, covered: set<Name>, round: nat, r: Name)
    requires r in rs && r !in covered && D.StreakIn(d.streaks, r) >= d.threshold && d.fired == {}
    ensures D.FireContested(d, s, xs, rs, covered, round).deadlocks != []
    decreases |rs|
  {
    hide D.ContestClaims, D.ContestAgents;
    var dl := D.ContestedDeadlock(d, s, xs, rs[0], round);
    if rs[0] in covered || D.StreakIn(d.streaks, rs[0]) < d.threshold || D.KeyOf(dl) in d.fired {
      FiresOrFired(d, s, xs, rs[1..], covered, round, r);
    }
  }

  lemma NothingCovered(d: D.State, s: L.State, ws: set<D.Wait>, gs: seq<seq<Name>>, round: nat)
    requires D.FireCycles(d, s, ws, gs, round).deadlocks == []
    ensures D.FireCycles(d, s, ws, gs, round).resources == {} && D.FireCycles(d, s, ws, gs, round).state == d
    decreases |gs|
  {
    hide D.GroupClaims, D.GroupResources;
    if gs != [] {
      assert D.KeyOf(D.CycleDeadlock(d, s, ws, gs[0], round)) in d.fired;
      NothingCovered(d, s, ws, gs[1..], round);
    }
  }

  /** The second scan in a row that finds QW441 contested reports a deadlock, if none was reported before. */
  lemma SecondScanReports(d: D.State, s: L.State, xs: seq<D.Challenge>, round: nat, id: nat)
    requires Stuck(s, id) && D.StreakIn(d.streaks, Seat441()) + 1 >= d.threshold && d.fired == {}
    ensures D.Scan(d, s, xs, round).deadlocks != []
  {
    hide D.Waits, D.WaitEdges, D.FireCycles, D.FireContested, D.ContestedNow, Stuck, Seat441;
    StuckIsContested(s, xs, id);
    var now, cyc := D.ContestedNow(s, xs), D.ScanCycles(d, s, round);
    if cyc.deadlocks == [] {
      NothingCovered(d, s, D.Waits(s), Graph.Cycles(D.WaitEdges(s, D.Waits(s))), round);
      FiresOrFired(D.Advance(d, now), s, xs, L.SortedNames(now), {}, round, Seat441());
    }
  }

  lemma FirstScanCounts(d: D.State, s: L.State, xs: seq<D.Challenge>, round: nat, id: nat)
    requires Stuck(s, id)
    ensures D.StreakIn(D.Scan(d, s, xs, round).state.streaks, Seat441()) >= 1
    ensures D.Scan(d, s, xs, round).state.threshold == d.threshold
  {
    hide D.Scan, D.ContestedNow, D.Fresh;
    StuckIsContested(s, xs, id);
    D.ScanFresh(d, s, xs, round);
  }

  /** As long as nothing was reported, no key has fired. */
  lemma NothingFired(c: Crypto, terms: Terms, w: World)
    requires Healthy(c, terms, w) && w.deadlocks == []
    ensures w.detector.fired == {}
  {
    hide Sound, B.Kept, V.Raises, V.RulingsCite;
    assert D.Keys([]) == [];
  }

  // ---------------------------------------------------------------- the two rounds

  lemma StageSays(w: World, d: R.Desk, round: nat, events: seq<Event>)
    requires Stage(w, d)
    ensures Stage(Say(w, round, events), d)
  {}

  /** Commit and reveal of round 1. */
  lemma FirstBids(cfg: Config, terms: Terms, w: World, d: R.Desk, t: A.Table, j: nat) returns (id: nat)
    requires Cast(cfg, d, t, j) && Stage(w, d) && Healthy(cfg.crypto, terms, w) && !CommitReveal(cfg, w, cfg.agents, 1).aborted
    ensures var out := CommitReveal(cfg, w, cfg.agents, 1);
            Stuck(out.world.ledger, id) && out.world.detector == w.detector && out.value.commits > 0
  {
    hide Healthy, Sound, Cast, Stage, Sealing, AllReady, CommitPhase, RevealPhase, R.Propose, ProposalsAt;
    hide R.Rightful, Stuck, ViewFor, R.FerryProposal, SeatsGrouped, Grantable, L.Free, OpenAll, SameSight;
    var c := cfg.crypto;
    var sealed := CommitPhase(cfg, w, cfg.agents, 1);
    CommitPhaseFacts(cfg, terms, w, cfg.agents, 1);
    SealedBidNonInterference(cfg, terms, w, cfg.agents, 1);
    HealthyParts(c, terms, w);
    SealedTables(cfg, terms, w, sealed);
    var bids, s := sealed.value, sealed.world.ledger;
    var ps := ProposalsAt(w, cfg.agents, 1);
    AdvocateBids(cfg, d, t, j, w);
    OpeningBids(d, w);
    StageSeats(w, d);
    FreeNow(w, d);
    RightfulGrantable(d, w, 1, FirstWave(w), {}, ps[1]);
    SameGrantable(w.ledger, s, ps[1]);
    SameFree(w.ledger, s, Seat441());
    var k :| 2 <= k < |ps| && ps[k].agent == A.NAME && ps[k].resource == Seat441();
    assert forall i :: 0 <= i < |bids| ==> ps[i] == bids[i].proposal;
    id := AdvocateBlocks(s, c, bids, 1, k);
    RevealOpens(cfg, sealed.world, bids, 1);
  }

  lemma SealedTables(cfg: Config, terms: Terms, w: World, out: Out<seq<Bid>>)
    requires Sealing(cfg, terms, w, out)
    ensures out.world.ledger.allocs == w.ledger.allocs && out.world.ledger.resources == w.ledger.resources && out.world.ledger.claims == w.ledger.claims
    ensures out.world.detector == w.detector && AllReady(cfg.crypto, out.world.ledger, out.value) && Sound(out.world.ledger)
  {
    hide Onward, Sound, AllReady;
  }

  lemma StageSeats(w: World, d: R.Desk)
    requires Stage(w, d)
    ensures SeatsGrouped(w.ledger) && Seat441() in w.ledger.resources && (FERRY in w.ledger.resources ==> w.ledger.resources[FERRY].group != Some(SEAT))
    ensures w.detector.threshold <= 2
  {}

  lemma SameFree(s: L.State, t: L.State, r: Name)
    requires t.allocs == s.allocs && t.resources == s.resources && r in s.resources
    ensures L.Free(t, r) == L.Free(s, r)
  {}

  /** Round 1 ends detection with the advocate waiting and the streak begun. */
  lemma RoundOne(cfg: Config, terms: Terms, w: World, d: R.Desk, t: A.Table, j: nat) returns (id: nat)
    requires Cast(cfg, d, t, j) && Stage(w, d) && Healthy(cfg.crypto, terms, w) && !UntilDetect(cfg, w, 1).aborted
    ensures var one := UntilDetect(cfg, w, 1);
            && Stuck(one.world.ledger, id) && D.StreakIn(one.world.detector.streaks, Seat441()) >= 1
            && one.world.detector.threshold <= 2 && one.value.0.commits > 0
  {
    hide Healthy, Cast, Stage, CommitReveal, PositionPhase, Stuck, D.Scan, MeekOrder;
    var order := Rotated(cfg.agents, 1);
    FirstOrder(cfg.agents);
    var a := Say(w, 1, [RoundStart(Names(order))]);
    FineSay(cfg.crypto, terms, w, 1, [RoundStart(Names(order))]);
    FineHealthy(cfg.crypto, terms, w, a);
    StageSays(w, d, 1, [RoundStart(Names(order))]);
    StageSeats(w, d);
    id := FirstBids(cfg, terms, a, d, t, j);
    var cr := CommitReveal(cfg, a, order, 1);
    CastIsMeek(cfg, d, t, j, 1);
    PositionsKeepStuck(cr.world, order, 1, id);
    var po := PositionPhase(cr.world, order, 1);
    FirstScanCounts(po.world.detector, po.world.ledger, Challenges(po.world.bank), 1, id);
  }

  lemma FirstOrder(agents: seq<Agent>)
    requires agents != []
    ensures Rotated(agents, 1) == agents
  {}

  lemma BidsKeepStuck(cfg: Config, terms: Terms, w: World, order: seq<Agent>, round: nat, id: nat)
    requires Healthy(cfg.crypto, terms, w) && Stuck(w.ledger, id) && !CommitReveal(cfg, w, order, round).aborted
    ensures var out := CommitReveal(cfg, w, order, round); Stuck(out.world.ledger, id) && out.world.detector == w.detector
  {
    hide Healthy, Sound, Sealing, AllReady, CommitPhase, RevealPhase, OpenAll;
    var c := cfg.crypto;
    var sealed := CommitPhase(cfg, w, order, round);
    CommitPhaseFacts(cfg, terms, w, order, round);
    SealedTables(cfg, terms, w, sealed);
    RevealOpens(cfg, sealed.world, sealed.value, round);
    OpenNone(sealed.world.ledger, c, sealed.value, round);
    StuckStays(sealed.world.ledger, c, sealed.value, round, 0, |sealed.value|, id);
    assert sealed.value[..|sealed.value|] == sealed.value;
  }

  /** Round 2 reports a deadlock if none was reported before. */
  lemma RoundTwo(cfg: Config, terms: Terms, w: World, d: R.Desk, t: A.Table, j: nat, id: nat)
    requires Cast(cfg, d, t, j) && Healthy(cfg.crypto, terms, w) && w.deadlocks == [] && !UntilDetect(cfg, w, 2).aborted
    requires Stuck(w.ledger, id) && D.StreakIn(w.detector.streaks, Seat441()) >= 1 && w.detector.threshold <= 2
    ensures UntilDetect(cfg, w, 2).world.deadlocks != []
  {
    hide Healthy, Cast, CommitReveal, PositionPhase, Stuck, D.Scan, MeekOrder;
    var order := Rotated(cfg.agents, 2);
    var a := Say(w, 2, [RoundStart(Names(order))]);
    NothingFired(cfg.crypto, terms, w);
    FineSay(cfg.crypto, terms, w, 2, [RoundStart(Names(order))]);
    FineHealthy(cfg.crypto, terms, w, a);
    BidsKeepStuck(cfg, terms, a, order, 2, id);
    var cr := CommitReveal(cfg, a, order, 2);
    CastIsMeek(cfg, d, t, j, 2);
    PositionsKeepStuck(cr.world, order, 2, id);
    var po := PositionPhase(cr.world, order, 2);
    SecondScanReports(po.world.detector, po.world.ledger, Challenges(po.world.bank), 2, id);
  }

  /** With nothing reported the mediator is not called, and the round closes without an end to the run. */
  lemma QuietRound(cfg: Config, w: World, round: nat)
    requires round >= 1 && !UntilDetect(cfg, w, round).aborted && UntilDetect(cfg, w, round).value.2 == [] && UntilDetect(cfg, w, round).value.0.commits > 0
    ensures var (front, out) := (UntilDetect(cfg, w, round), Round(cfg, w, round));
            !out.aborted && !out.value && out.world.ledger == front.world.ledger && out.world.detector == front.world.detector
            && out.world.deadlocks == front.world.deadlocks
  {
    hide UntilDetect, L.IdsWith, B.OpenIds, Stamp;
  }

  lemma ReportedAreRecorded(cfg: Config, w: World, round: nat)
    requires round >= 1 && !UntilDetect(cfg, w, round).aborted && UntilDetect(cfg, w, round).world.deadlocks == []
    ensures UntilDetect(cfg, w, round).value.2 == []
  {
    hide CommitReveal, PositionPhase, D.Scan, Rotated, Names;
  }

  /** A deadlock is on record once the round's detection is done. */
  ghost predicate Records(cfg: Config, w: World, round: nat)
    requires round >= 1
  {
    !UntilDetect(cfg, w, round).aborted && UntilDetect(cfg, w, round).world.deadlocks != []
  }

  /** An exception cuts the round short before its detection is done. */
  ghost predicate CutShort(cfg: Config, w: World, round: nat)
    requires round >= 1
  {
    UntilDetect(cfg, w, round).aborted
  }

  /** The round ends, and the run goes on. */
  ghost predicate GoesOn(cfg: Config, w: World, round: nat)
    requires round >= 1
  {
    !Round(cfg, w, round).aborted && !Round(cfg, w, round).value
  }

  ghost function After(cfg: Config, w: World, round: nat): World
    requires round >= 1
  {
    Round(cfg, w, round).world
  }

  /** A deadlock is on record by the end of the second round's detection. */
  ghost predicate DeadlockedByTwo(cfg: Config, w: World) {
    Records(cfg, w, 1) || (GoesOn(cfg, w, 1) && Records(cfg, After(cfg, w, 1), 2))
  }

  /** An exception comes first. */
  ghost predicate CutShortByTwo(cfg: Config, w: World) {
    CutShort(cfg, w, 1) || (GoesOn(cfg, w, 1) && CutShort(cfg, After(cfg, w, 1), 2))
  }

  /**
   * The structural guarantee: whatever the other agents and the mediator do, by the end of the second round's
   * detection a deadlock is recorded, unless an exception ends the run first.
   */
  lemma DeadlockByRoundTwo(cfg: Config, terms: Terms, w: World, d: R.Desk, t: A.Table, j: nat)
    requires Cast(cfg, d, t, j) && Stage(w, d) && Healthy(cfg.crypto, terms, w) && (terms.cited ==> ResolvesSafely(cfg))
    ensures CutShortByTwo(cfg, w) || DeadlockedByTwo(cfg, w)
  {
    hide Healthy, Cast, Stage, UntilDetect, Round, Stuck, ResolvesSafely;
    var one, mid := UntilDetect(cfg, w, 1), Round(cfg, w, 1);
    if !one.aborted && one.world.deadlocks == [] {
      var id := RoundOne(cfg, terms, w, d, t, j);
      ReportedAreRecorded(cfg, w, 1);
      QuietRound(cfg, w, 1);
      FineRound(cfg, terms, w, 1);
      FineHealthy(cfg.crypto, terms, w, mid.world);
      if !UntilDetect(cfg, mid.world, 2).aborted { RoundTwo(cfg, terms, mid.world, d, t, j, id); }
    }
  }

  // ---------------------------------------------------------------- the whole run

  lemma RunUnfolds(cfg: Config, w: World, round: nat)
    requires 1 <= round <= cfg.maxRounds
    ensures var out := Round(cfg, w, round);
            RunFrom(cfg, w, round) == if out.aborted then Aborted(out.world)
                                      else if out.value then Finish(cfg, out.world, round, true) else RunFrom(cfg, out.world, round + 1)
    ensures RunFrom(cfg, w, round).Returned? ==> !UntilDetect(cfg, w, round).aborted && !Round(cfg, w, round).aborted
  {
    hide UntilDetect, AfterDetect, CloseRound, Finish;
  }

  /** What detection recorded stays recorded to the end, whether the run returns or is aborted later. */
  lemma RecordedForGood(cfg: Config, terms: Terms, w: World, round: nat)
    requires Healthy(cfg.crypto, terms, w) && (terms.cited ==> ResolvesSafely(cfg)) && 1 <= round <= cfg.maxRounds
    requires !UntilDetect(cfg, w, round).aborted
    ensures Onward(UntilDetect(cfg, w, round).world, RunFrom(cfg, w, round).world)
  {
    hide Healthy, UntilDetect, Round, RunFrom, Finish, ResolvesSafely, Onward;
    RunUnfolds(cfg, w, round);
    FineBack(cfg, terms, w, round);
    var front, mid := UntilDetect(cfg, w, round).world, Round(cfg, w, round).world;
    FineHealthy(cfg.crypto, terms, front, mid);
    assert Onward(front, mid) && Onward(mid, mid) by { OnwardRefl(mid); FineOnward(cfg.crypto, terms, front, mid); }
    if !Round(cfg, w, round).aborted {
      if Round(cfg, w, round).value {
        FineFinish(cfg, terms, mid, round, true);
      } else {
        FineRun(cfg, terms, mid, round + 1);
      }
      FineOnward(cfg.crypto, terms, mid, RunFrom(cfg, w, round).world);
    }
    OnwardTrans(front, mid, RunFrom(cfg, w, round).world);
  }

  lemma StillRecorded(w: World, x: World)
    requires Onward(w, x) && w.deadlocks != []
    ensures x.deadlocks != []
  {
    hide Evolves;
  }

  lemma FineOnward(c: Crypto, terms: Terms, w: World, x: World)
    requires Fine(c, terms, w, x)
    ensures Onward(w, x)
  {}

  lemma RecordsForGood(cfg: Config, terms: Terms, w: World, round: nat)
    requires Healthy(cfg.crypto, terms, w) && (terms.cited ==> ResolvesSafely(cfg)) && 1 <= round <= cfg.maxRounds && Records(cfg, w, round)
    ensures RunFrom(cfg, w, round).world.deadlocks != []
  {
    hide Healthy, UntilDetect, RunFrom, ResolvesSafely, Onward;
    RecordedForGood(cfg, terms, w, round);
    StillRecorded(UntilDetect(cfg, w, round).world, RunFrom(cfg, w, round).world);
  }

  /** With two rounds or more to run, a deadlock recorded by the second is on record when the run ends, however it ends. */
  lemma RunKeepsDeadlock(cfg: Config, terms: Terms, w: World)
    requires Healthy(cfg.crypto, terms, w) && (terms.cited ==> ResolvesSafely(cfg)) && cfg.maxRounds >= 2 && DeadlockedByTwo(cfg, w)
    ensures RunSociety(cfg, w).world.deadlocks != []
  {
    hide Healthy, UntilDetect, Round, RunFrom, ResolvesSafely, Records;
    if Records(cfg, w, 1) {
      RecordsForGood(cfg, terms, w, 1);
    } else {
      var mid := After(cfg, w, 1);
      RunUnfolds(cfg, w, 1);
      FineRound(cfg, terms, w, 1);
      FineHealthy(cfg.crypto, terms, w, mid);
      RecordsForGood(cfg, terms, mid, 2);
    }
  }

  /** Every run of two or more rounds that returns has recorded a deadlock. */
  lemma RunRecordsDeadlock(cfg: Config, terms: Terms, w: World, d: R.Desk, t: A.Table, j: nat)
    requires Cast(cfg, d, t, j) && Stage(w, d) && Healthy(cfg.crypto, terms, w) && (terms.cited ==> ResolvesSafely(cfg)) && cfg.maxRounds >= 2
    ensures var run := RunSociety(cfg, w); run.Returned? ==> run.world.deadlocks != []
  {
    hide Healthy, Cast, Stage, UntilDetect, Round, RunFrom, ResolvesSafely, DeadlockedByTwo;
    if RunSociety(cfg, w).Returned? {
      DeadlockByRoundTwo(cfg, terms, w, d, t, j);
      RunUnfolds(cfg, w, 1);
      if GoesOn(cfg, w, 1) { RunUnfolds(cfg, After(cfg, w, 1), 2); }
      RunKeepsDeadlock(cfg, terms, w);
    }
  }
}
