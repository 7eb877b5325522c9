/** The story of a round: who is asked what in which order, what comes of the answers, and when the society is done. */
module RoundStory {
  import opened Order
  import opened Schemas
  import opened LedgerFacts
  import opened Rounds
  import opened RoundFacts
  import opened RunTheorems
  import opened RebookingFacts
  import opened PositionFacts
  import opened SettlementFacts
  import opened MediationFacts
  import opened Escalation
  import I = Impasse
  import L = Ledger
  import B = Bank
  import D = Detector

  // ---------------------------------------------------------------- positions

  function Dated(round: nat, ps: seq<Position>): (r: seq<(nat, Position)>)
    ensures |r| == |ps| && forall i :: 0 <= i < |r| ==> r[i] == (round, ps[i])
  {
    seq(|ps|, i requires 0 <= i < |ps| => (round, ps[i]))
  }

  /** One position is logged and filed, and then takes effect. */
  ghost predicate TakesEffect(w: World, x: World, p: Position, round: nat) {
    var filed := w.(log := w.log + [Stamped(round, PositionFiled(p))], positions := w.positions + [(round, p)]);
    !ProcessPosition(filed, p, round).aborted && x == ProcessPosition(filed, p, round).world
  }

  /** The positions take effect one after another. */
  ghost predicate OneByOne(us: seq<World>, ps: seq<Position>, round: nat) {
    |us| == |ps| + 1 && forall i :: 0 <= i < |ps| ==> TakesEffect(us[i], us[i+1], ps[i], round)
  }

  ghost predicate Chained(w: World, x: World, ps: seq<Position>, round: nat) {
    exists us :: OneByOne(us, ps, round) && us[0] == w && us[|ps|] == x
  }

  ghost predicate AllTakeEffect(w: World, x: World, ps: seq<Position>, round: nat) {
    x.positions == w.positions + Dated(round, ps) && Chained(w, x, ps, round)
  }

  lemma FileIs(w: World, p: Position, round: nat)
    ensures File(w, p, round) == w.(log := w.log + [Stamped(round, PositionFiled(p))], positions := w.positions + [(round, p)])
  {
    OneLine(round, PositionFiled(p));
    hide Stamp;
  }

  lemma ProcessKeepsRecords(w: World, p: Position, round: nat)
    ensures var x := ProcessPosition(w, p, round).world;
            x.positions == w.positions && x.deadlocks == w.deadlocks && x.detector == w.detector && x.rulings == w.rulings
            && x.rulingSeq == w.rulingSeq && x.rejections == w.rejections
  {
    hide L.Release, L.Withdraw, B.OpenContest, Stamp;
  }

  lemma MoreTakesEffect(w: World, x: World, y: World, ps: seq<Position>, round: nat)
    requires ps != [] && TakesEffect(w, x, ps[0], round) && x.positions == w.positions + [(round, ps[0])] && AllTakeEffect(x, y, ps[1..], round)
    ensures AllTakeEffect(w, y, ps, round)
  {
    hide TakesEffect, Chained;
    MoreChained(w, x, y, ps, round);
    assert Dated(round, ps) == [(round, ps[0])] + Dated(round, ps[1..]);
  }

  lemma MoreChained(w: World, x: World, y: World, ps: seq<Position>, round: nat)
    requires ps != [] && TakesEffect(w, x, ps[0], round) && Chained(x, y, ps[1..], round)
    ensures Chained(w, y, ps, round)
  {
    hide TakesEffect;
    var us :| OneByOne(us, ps[1..], round) && us[0] == x && us[|ps|-1] == y;
    ChainFrom(w, us, ps, round);
  }

  lemma ChainFrom(w: World, us: seq<World>, ps: seq<Position>, round: nat)
    requires ps != [] && OneByOne(us, ps[1..], round) && TakesEffect(w, us[0], ps[0], round)
    ensures OneByOne([w] + us, ps, round)
  {
    hide TakesEffect;
    var vs := [w] + us;
    forall i | 0 <= i < |ps| ensures TakesEffect(vs[i], vs[i+1], ps[i], round) {
      if i > 0 { assert vs[i] == us[i-1] && vs[i+1] == us[i] && ps[i] == ps[1..][i-1]; }
    }
  }

  /** All of an agent's positions are filed, under its own name, and take effect in order. */
  lemma {:induction false} FileAllTells(w: World, name: Name, ps: seq<Position>, round: nat)
    requires !FileAll(w, name, ps, round).aborted
    ensures var out := FileAll(w, name, ps, round);
            AllTakeEffect(w, out.world, ps, round) && out.value == |ps| && (forall p :: p in ps ==> p.agent == name)
            && out.world.rulingSeq == w.rulingSeq && out.world.rulings == w.rulings && out.world.deadlocks == w.deadlocks && out.world.detector == w.detector
    decreases |ps|
  {
    hide ProcessPosition, File, AllTakeEffect;
    if ps == [] {
      NoneTakeEffect(w, round);
    } else {
      var p := ps[0];
      FileIs(w, p, round);
      var x := ProcessPosition(File(w, p, round), p, round).world;
      ProcessKeepsRecords(File(w, p, round), p, round);
      FileAllTells(x, name, ps[1..], round);
      MoreTakesEffect(w, x, FileAll(x, name, ps[1..], round).world, ps, round);
    }
  }

  lemma NoneTakeEffect(w: World, round: nat)
    ensures AllTakeEffect(w, w, [], round)
  {
    hide ProcessPosition;
    assert OneByOne([w], [], round) && [w][0] == w;
    assert w.positions + Dated(round, []) == w.positions;
  }

  /** Each agent in turn answers the world as its predecessors left it, and all its positions take effect. */
  ghost predicate HeardInTurn(vs: seq<World>, order: seq<Agent>, round: nat) {
    |vs| == |order| + 1 && forall k :: 0 <= k < |order| ==>
      AllTakeEffect(vs[k], vs[k+1], order[k].respond(ViewFor(vs[k], order[k].name, round)), round)
  }

  ghost predicate AllHeard(w: World, x: World, order: seq<Agent>, round: nat) {
    exists vs :: HeardInTurn(vs, order, round) && vs[0] == w && vs[|order|] == x
  }

  lemma MoreHeard(w: World, x: World, y: World, order: seq<Agent>, round: nat)
    requires order != [] && AllTakeEffect(w, x, order[0].respond(ViewFor(w, order[0].name, round)), round) && AllHeard(x, y, order[1..], round)
    ensures AllHeard(w, y, order, round)
  {
    hide AllTakeEffect, ViewFor;
    var us :| HeardInTurn(us, order[1..], round) && us[0] == x && us[|order|-1] == y;
    var vs := [w] + us;
    forall k | 0 <= k < |order| ensures AllTakeEffect(vs[k], vs[k+1], order[k].respond(ViewFor(vs[k], order[k].name, round)), round) {
      if k > 0 { assert vs[k] == us[k-1] && order[k] == order[1..][k-1]; }
    }
    assert HeardInTurn(vs, order, round);
  }

  lemma {:induction false} PhaseTells(w: World, order: seq<Agent>, round: nat)
    requires !PositionPhase(w, order, round).aborted
    ensures var x := PositionPhase(w, order, round).world;
            AllHeard(w, x, order, round) && PositionPhase(w, order, round).value == |x.positions| - |w.positions|
            && x.rulingSeq == w.rulingSeq && x.rulings == w.rulings && x.deadlocks == w.deadlocks && x.detector == w.detector
    decreases |order|
  {
    hide FileAll, ViewFor, AllHeard;
    if order == [] {
      NobodyHeard(w, round);
    } else {
      var ps := order[0].respond(ViewFor(w, order[0].name, round));
      var one := FileAll(w, order[0].name, ps, round);
      FileAllTells(w, order[0].name, ps, round);
      PositionsGrow(w, one.world, ps, round);
      hide AllTakeEffect;
      PhaseTells(one.world, order[1..], round);
      MoreHeard(w, one.world, PositionPhase(one.world, order[1..], round).world, order, round);
    }
  }

  lemma PositionsGrow(w: World, x: World, ps: seq<Position>, round: nat)
    requires AllTakeEffect(w, x, ps, round)
    ensures |x.positions| == |w.positions| + |ps|
  {}

  lemma NobodyHeard(w: World, round: nat)
    ensures AllHeard(w, w, [], round)
  {
    assert HeardInTurn([w], [], round);
  }

  // ---------------------------------------------------------------- bids

  /** What no phase before mediation touches. */
  ghost predicate SameRulings(w: World, x: World) {
    x.rulingSeq == w.rulingSeq && x.rulings == w.rulings
  }

  lemma {:induction false} SealAllKeeps(cfg: Config, w: World, name: Name, ps: seq<Proposal>, round: nat)
    ensures SameRulings(w, SealAll(cfg, w, name, ps, round).world) && SealAll(cfg, w, name, ps, round).world.deadlocks == w.deadlocks
    decreases |ps|
  {
    hide NextBid, Stamp;
    if ps != [] && ps[0].agent == name { SealAllKeeps(cfg, Seal(cfg, w, ps[0], round), name, ps[1..], round); }
  }

  lemma {:induction false} CommitKeeps(cfg: Config, w: World, order: seq<Agent>, round: nat)
    ensures SameRulings(w, CommitPhase(cfg, w, order, round).world) && CommitPhase(cfg, w, order, round).world.deadlocks == w.deadlocks
    decreases |order|
  {
    hide SealAll, ViewFor;
    if order != [] {
      var ps := order[0].propose(ViewFor(w, order[0].name, round));
      SealAllKeeps(cfg, w, order[0].name, ps, round);
      CommitKeeps(cfg, SealAll(cfg, w, order[0].name, ps, round).world, order[1..], round);
    }
  }

  lemma {:induction false} RevealKeeps(cfg: Config, w: World, bids: seq<Bid>, round: nat)
    ensures var x := RevealPhase(cfg, w, bids, round).world; SameRulings(w, x) && x.positions == w.positions && x.deadlocks == w.deadlocks && x.detector == w.detector
    decreases |bids|
  {
    hide L.Reveal, Stamp;
    if bids != [] { RevealKeeps(cfg, OpenOne(cfg, w, bids[0], round), bids[1..], round); }
  }

  /**
   * Every agent has sealed all it proposed on the view of `w`, and then all the bids were opened in order on the
   * ledger that has them sealed; bank, detector and records are as they were.
   */
  ghost predicate BidsOpened(cfg: Config, w: World, x: World, order: seq<Agent>, round: nat) {
    exists s, bids ::
      && AllReady(cfg.crypto, s, bids) && s.resources == w.ledger.resources && s.allocs == w.ledger.allocs && s.claims == w.ledger.claims
      && ProposalsOf(bids) == ProposalsAt(w, order, round) && x.ledger == OpenAll(s, cfg.crypto, bids, round)
      && x == w.(ledger := x.ledger, log := x.log)
  }

  lemma BidsTell(cfg: Config, terms: Terms, w: World, order: seq<Agent>, round: nat)
    requires Healthy(cfg.crypto, terms, w) && !CommitReveal(cfg, w, order, round).aborted
    ensures var out := CommitReveal(cfg, w, order, round);
            BidsOpened(cfg, w, out.world, order, round) && out.value == Tally(|ProposalsAt(w, order, round)|, 0)
  {
    hide Healthy, Sound, CommitPhase, RevealPhase, Sealing, AllReady, Onward, OpenAll, SameSight, ProposalsAt;
    var sealed := CommitPhase(cfg, w, order, round);
    CommitPhaseFacts(cfg, terms, w, order, round);
    SealingParts(cfg, terms, w, sealed);
    I.SealedTables(cfg, terms, w, sealed);
    SealedBidNonInterference(cfg, terms, w, order, round);
    SealedRest(cfg, terms, w, sealed);
    CommitKeeps(cfg, w, order, round);
    I.RevealOpens(cfg, sealed.world, sealed.value, round);
    RevealKeeps(cfg, sealed.world, sealed.value, round);
    RevealPhaseFacts(cfg, terms, sealed.world, sealed.value, round);
  }

  lemma SealedRest(cfg: Config, terms: Terms, w: World, out: Out<seq<Bid>>)
    requires Sealing(cfg, terms, w, out)
    ensures out.world.bank == w.bank && out.world.positions == w.positions && out.world.detector == w.detector
  {}

  // ---------------------------------------------------------------- the scan

  /** The challenges are the open contests. */
  ghost predicate ListsContests(b: B.State, xs: seq<D.Challenge>) {
    forall a, t :: D.Challenge(a, t) in xs <==> exists id :: B.IsOpen(b, id) && b.contests[id].agent == a && b.contests[id].target == t
  }

  lemma ChallengeIsContest(b: B.State, k: nat)
    requires k < |Challenges(b)|
    ensures var x := Challenges(b)[k]; exists id :: B.IsOpen(b, id) && b.contests[id].agent == x.agent && b.contests[id].target == x.target
  {
    var v := ContestsView(b);
    assert v[k] in v && Shows(b, v[k]);
  }

  lemma ContestIsChallenge(b: B.State, id: nat)
    requires B.IsOpen(b, id)
    ensures D.Challenge(b.contests[id].agent, b.contests[id].target) in Challenges(b)
  {
    var v := ContestsView(b);
    ViewCovers(b);
    var x :| x in v && x.id == id;
    var k :| 0 <= k < |v| && v[k] == x;
    assert Shows(b, x) && Challenges(b)[k] == D.Challenge(b.contests[id].agent, b.contests[id].target);
  }

  lemma ChallengesAreContests(b: B.State)
    ensures ListsContests(b, Challenges(b))
  {
    hide Challenges;
    var xs := Challenges(b);
    forall a, t ensures D.Challenge(a, t) in xs <==> exists id :: B.IsOpen(b, id) && b.contests[id].agent == a && b.contests[id].target == t {
      if k :| 0 <= k < |xs| && xs[k] == D.Challenge(a, t) { ChallengeIsContest(b, k); }
      if id :| B.IsOpen(b, id) && b.contests[id].agent == a && b.contests[id].target == t { ContestIsChallenge(b, id); }
    }
  }

  /** The detector scans ledger and open contests; what it reports is recorded, and logged line by line. */
  ghost predicate ScanRecorded(w: World, x: World, round: nat) {
    exists xs :: ListsContests(w.bank, xs) && var f := D.Scan(w.detector, w.ledger, xs, round);
      && x.detector == f.state && x.deadlocks == w.deadlocks + f.deadlocks && x == w.(detector := x.detector, deadlocks := x.deadlocks, log := x.log)
      && x.log == w.log + seq(|f.deadlocks|, i requires 0 <= i < |f.deadlocks| => Stamped(round, DeadlockFound(f.deadlocks[i])))
  }

  lemma DetectTells(w: World, round: nat)
    ensures ScanRecorded(w, Detect(w, round).world, round)
    ensures Detect(w, round).value == Detect(w, round).world.deadlocks[|w.deadlocks|..]
  {
    hide D.Scan, Challenges, ListsContests;
    ChallengesAreContests(w.bank);
    var f := D.Scan(w.detector, w.ledger, Challenges(w.bank), round);
    assert Stamp(round, Announce(f.deadlocks)) == seq(|f.deadlocks|, i requires 0 <= i < |f.deadlocks| => Stamped(round, DeadlockFound(f.deadlocks[i])));
  }

  // ---------------------------------------------------------------- mediation

  predicate Concerns(dl: Deadlock, p: Position) {
    p.target in dl.claims || p.agent in dl.agents
  }

  /** `qs` are the filed positions that concern the deadlock, all of them and in the order they were filed. */
  ghost predicate Selected(ps: seq<(nat, Position)>, dl: Deadlock, qs: seq<Position>, at: seq<nat>) {
    && |at| == |qs| && (forall i, j :: 0 <= i < j < |at| ==> at[i] < at[j])
    && (forall i :: 0 <= i < |at| ==> at[i] < |ps| && qs[i] == ps[at[i]].1)
    && (forall k :: 0 <= k < |ps| ==> (k in at <==> Concerns(dl, ps[k].1)))
  }

  ghost predicate AllThatConcern(ps: seq<(nat, Position)>, dl: Deadlock, qs: seq<Position>) {
    exists at :: Selected(ps, dl, qs, at)
  }

  lemma {:induction false} RelevantConcerns(ps: seq<(nat, Position)>, dl: Deadlock)
    ensures AllThatConcern(ps, dl, Relevant(ps, dl))
    decreases |ps|
  {
    if ps == [] {
      assert Selected(ps, dl, [], []);
    } else {
      RelevantConcerns(ps[1..], dl);
      var at :| Selected(ps[1..], dl, Relevant(ps[1..], dl), at);
      SelectMore(ps, dl, Relevant(ps[1..], dl), at);
    }
  }

  function Shifted(at: seq<nat>): (r: seq<nat>)
    ensures |r| == |at| && forall i :: 0 <= i < |r| ==> r[i] == at[i] + 1
  {
    seq(|at|, i requires 0 <= i < |at| => at[i] + 1)
  }

  lemma InShifted(at: seq<nat>, k: nat)
    ensures k in Shifted(at) <==> k > 0 && k - 1 in at
  {
    if k in Shifted(at) {
      var i :| 0 <= i < |at| && Shifted(at)[i] == k;
      assert at[i] == k - 1;
    }
    if k > 0 && k - 1 in at {
      var i :| 0 <= i < |at| && at[i] == k - 1;
      assert Shifted(at)[i] == k;
    }
  }

  lemma SelectMore(ps: seq<(nat, Position)>, dl: Deadlock, qs: seq<Position>, at: seq<nat>)
    requires ps != [] && Selected(ps[1..], dl, qs, at)
    ensures AllThatConcern(ps, dl, (if Concerns(dl, ps[0].1) then [ps[0].1] else []) + qs)
  {
    hide Concerns, Shifted;
    var first := Concerns(dl, ps[0].1);
    var now, rs := (if first then [0] else []) + Shifted(at), (if first then [ps[0].1] else []) + qs;
    forall k | 0 <= k < |ps| ensures k in now <==> Concerns(dl, ps[k].1) {
      InShifted(at, k);
      if k > 0 { assert ps[k] == ps[1..][k-1]; }
    }
    SelectedAt(ps, dl, qs, at, now, rs);
  }

  lemma SelectedAt(ps: seq<(nat, Position)>, dl: Deadlock, qs: seq<Position>, at: seq<nat>, now: seq<nat>, rs: seq<Position>)
    requires ps != [] && Selected(ps[1..], dl, qs, at)
    requires forall k :: 0 <= k < |ps| ==> (k in now <==> Concerns(dl, ps[k].1))
    requires if Concerns(dl, ps[0].1) then now == [0] + Shifted(at) && rs == [ps[0].1] + qs else now == Shifted(at) && rs == qs
    ensures AllThatConcern(ps, dl, rs)
  {
    hide Concerns, Shifted;
    forall i | 0 <= i < |at| ensures Shifted(at)[i] < |ps| && qs[i] == ps[Shifted(at)[i]].1 {
      assert at[i] < |ps| - 1 && ps[1..][at[i]] == ps[at[i] + 1];
    }
    if Concerns(dl, ps[0].1) { Prepended(ps, qs, Shifted(at)); }
    assert Selected(ps, dl, rs, now);
  }

  lemma Prepended(ps: seq<(nat, Position)>, qs: seq<Position>, at: seq<nat>)
    requires ps != [] && |at| == |qs| && (forall i, j :: 0 <= i < j < |at| ==> at[i] < at[j]) && forall i :: 0 <= i < |at| ==> 0 < at[i]
    requires forall i :: 0 <= i < |at| ==> at[i] < |ps| && qs[i] == ps[at[i]].1
    ensures var now, rs := [0] + at, [ps[0].1] + qs;
            && (forall i, j :: 0 <= i < j < |now| ==> now[i] < now[j])
            && forall i :: 0 <= i < |now| ==> now[i] < |ps| && rs[i] == ps[now[i]].1
  {}

  /** The mediator is asked about one deadlock, on the positions that concern it and the view of the moment, and its answer takes effect. */
  ghost predicate Asked(cfg: Config, m: Mediator, w: World, x: World, dl: Deadlock, round: nat) {
    exists qs :: AllThatConcern(w.positions, dl, qs) && Answered(cfg, w, x, m.rule(dl, qs, MediatorViewFor(w, round, qs, [dl])), round, Some(dl))
  }

  /** About each deadlock in turn. */
  ghost predicate AskedInTurn(cfg: Config, m: Mediator, vs: seq<World>, ds: seq<Deadlock>, round: nat) {
    |vs| == |ds| + 1 && forall k :: 0 <= k < |ds| ==> Asked(cfg, m, vs[k], vs[k+1], ds[k], round)
  }

  ghost predicate AllAsked(cfg: Config, m: Mediator, w: World, x: World, ds: seq<Deadlock>, round: nat) {
    exists vs :: AskedInTurn(cfg, m, vs, ds, round) && vs[0] == w && vs[|ds|] == x
  }

  lemma AskedFrom(cfg: Config, m: Mediator, w: World, us: seq<World>, ds: seq<Deadlock>, round: nat)
    requires ds != [] && AskedInTurn(cfg, m, us, ds[1..], round) && Asked(cfg, m, w, us[0], ds[0], round)
    ensures AskedInTurn(cfg, m, [w] + us, ds, round)
  {
    hide Asked;
    var vs := [w] + us;
    forall k | 0 <= k < |ds| ensures Asked(cfg, m, vs[k], vs[k+1], ds[k], round) {
      if k > 0 { assert vs[k] == us[k-1] && vs[k+1] == us[k] && ds[k] == ds[1..][k-1]; }
    }
  }

  lemma {:induction false} MediateTells(cfg: Config, terms: Terms, m: Mediator, w: World, ds: seq<Deadlock>, round: nat)
    requires Healthy(cfg.crypto, terms, w) && (terms.cited ==> ResolvesSafely(cfg)) && !MediateAll(cfg, m, w, ds, round).aborted
    ensures var x := MediateAll(cfg, m, w, ds, round).world;
            AllAsked(cfg, m, w, x, ds, round) && x.rulingSeq == w.rulingSeq + |ds| && x.deadlocks == w.deadlocks && x.positions == w.positions
    decreases |ds|
  {
    hide Healthy, SignAndApply, MediatorViewFor, Relevant, Answered, AllThatConcern, ResolvesSafely;
    if ds == [] {
      assert AskedInTurn(cfg, m, [w], ds, round) && [w][0] == w;
    } else {
      var qs := Relevant(w.positions, ds[0]);
      RelevantConcerns(w.positions, ds[0]);
      var r := m.rule(ds[0], qs, MediatorViewFor(w, round, qs, [ds[0]]));
      var one := SignAndApply(cfg, w, r, round, Some(ds[0]));
      RulingDoes(cfg, terms, w, r, round, Some(ds[0]));
      AnswerNumbers(cfg, w, one.world, r, round, Some(ds[0]));
      FineSign(cfg, terms, w, r, round, Some(ds[0]));
      FineHealthy(cfg.crypto, terms, w, one.world);
      assert Asked(cfg, m, w, one.world, ds[0], round);
      MediateTells(cfg, terms, m, one.world, ds[1..], round);
      var x := MediateAll(cfg, m, one.world, ds[1..], round).world;
      var us :| AskedInTurn(cfg, m, us, ds[1..], round) && us[0] == one.world && us[|ds|-1] == x;
      AskedFrom(cfg, m, w, us, ds, round);
      assert ([w] + us)[|ds|] == x;
    }
  }

  // ---------------------------------------------------------------- a whole round

  /** The round ends with its closing line, and with a second one when nothing at all is left to do. */
  ghost predicate Closed(w: World, x: World, commits: nat, positions: nat, deadlocks: nat, round: nat) {
    var blocked, open := |L.IdsWith(w.ledger, Blocked)|, |B.OpenIds(w.bank)|;
    x == w.(log := w.log + [Stamped(round, RoundEnd(commits, 0, positions, blocked, open, deadlocks))]
                         + if Idle(w, commits, positions) then [Stamped(round, Quiescent)] else [])
  }

  /** Nothing was bid, nothing was filed, nothing is blocked and nothing contested. */
  ghost predicate Idle(w: World, commits: nat, positions: nat) {
    commits == 0 && positions == 0 && NoBlocked(w.ledger) && NoneOpen(w.bank)
  }

  lemma IdleIs(w: World)
    ensures |L.IdsWith(w.ledger, Blocked)| == 0 <==> NoBlocked(w.ledger)
    ensures |B.OpenIds(w.bank)| == 0 <==> NoneOpen(w.bank)
  {
    var ids, open := L.IdsWith(w.ledger, Blocked), B.OpenIds(w.bank);
    if i :| i in w.ledger.claims && w.ledger.claims[i].status == Blocked { assert i in ids; }
    if i :| i in w.bank.contests && w.bank.contests[i].status == B.Open { assert i in open; }
    NonEmptyHasElem(ids);
    NonEmptyHasElem(open);
    hide L.IdsWith, B.OpenIds;
  }

  lemma CloseTells(w: World, t: Tally, positions: nat, deadlocks: nat, round: nat)
    requires t.rejected == 0
    ensures var out := CloseRound(w, t, positions, deadlocks, round);
            !out.aborted && Closed(w, out.world, t.commits, positions, deadlocks, round) && (out.value <==> Idle(w, t.commits, positions))
  {
    IdleIs(w);
    hide L.IdsWith, B.OpenIds, NoBlocked, NoneOpen;
    var end := RoundEnd(t.commits, t.rejected, positions, |L.IdsWith(w.ledger, Blocked)|, |B.OpenIds(w.bank)|, deadlocks);
    OneLine(round, end);
    OneLine(round, Quiescent);
    hide Stamp;
    assert w.log + [Stamped(round, end)] + [] == w.log + [Stamped(round, end)];
  }

  /** Who speaks when: each round the next agent begins. */
  ghost predicate Rotates(agents: seq<Agent>, order: seq<Agent>, round: nat)
    requires agents != [] && round >= 1
  {
    |order| == |agents| && forall i :: 0 <= i < |agents| ==> order[i] == agents[(i + round - 1) % |agents|]
  }

  lemma RotatedRotates(agents: seq<Agent>, round: nat)
    requires agents != [] && round >= 1
    ensures Rotates(agents, Rotated(agents, round), round)
  {
    var n, k := |agents|, (round - 1) % |agents|;
    forall i | 0 <= i < n ensures Rotated(agents, round)[i] == agents[(i + round - 1) % n] {
      TurnOrder(i, round - 1, n);
    }
  }

  lemma TurnOrder(i: nat, m: nat, n: nat)
    requires 0 <= i < n
    ensures (i + m) % n == if i + m % n < n then i + m % n else i + m % n - n
  {
    var q, k := m / n, m % n;
    assert i + m == q * n + (i + k);
    if i + k < n { Remainder(q, i + k, n, i + m); } else { Remainder(q + 1, i + k - n, n, i + m); }
  }

  lemma Remainder(q: int, r: nat, n: nat, x: int)
    requires r < n && x == q * n + r
    ensures x % n == r
  {
    var d, e := x / n, x % n;
    assert x == d * n + e;
    if d > q { Apart(n, d, q); }
    if d < q { Apart(n, q, d); }
  }

  lemma Apart(n: nat, d: int, q: int)
    requires d > q
    ensures d * n >= q * n + n
  {
    assert d * n == q * n + (d - q) * n;
    B.TimesMono(n, 1, d - q);
  }

  /** The worlds a round passes through: after the opening line, the bids, the positions, the scan, and mediation. */
  datatype Stages = Stages(order: seq<Agent>, begun: World, bid: World, heard: World, scanned: World, asked: World)

  /** Up to and including the scan. */
  ghost predicate FirstHalf(cfg: Config, w: World, t: Stages, round: nat)
    requires cfg.agents != [] && round >= 1
  {
    && Rotates(cfg.agents, t.order, round) && t.begun == w.(log := w.log + [Stamped(round, RoundStart(Names(t.order)))])
    && BidsOpened(cfg, t.begun, t.bid, t.order, round) && AllHeard(t.bid, t.heard, t.order, round) && ScanRecorded(t.heard, t.scanned, round)
    && t.scanned.rulingSeq == w.rulingSeq && t.heard.deadlocks == w.deadlocks
  }

  ghost function Reports(t: Stages): seq<Deadlock> {
    if |t.heard.deadlocks| <= |t.scanned.deadlocks| then t.scanned.deadlocks[|t.heard.deadlocks|..] else []
  }

  /** Mediation of what the scan reported, if there is a mediator, and the closing line. */
  ghost predicate SecondHalf(cfg: Config, t: Stages, x: World, round: nat) {
    && (match cfg.mediator
        case None => t.asked == t.scanned
        case Some(m) => AllAsked(cfg, m, t.scanned, t.asked, Reports(t), round) && t.asked.rulingSeq == t.scanned.rulingSeq + |Reports(t)|)
    && Closed(t.asked, x, Commits(t, round), Filed(t), |Reports(t)|, round)
  }

  ghost function Commits(t: Stages, round: nat): nat {
    |ProposalsAt(t.begun, t.order, round)|
  }

  ghost function Filed(t: Stages): nat {
    if |t.bid.positions| <= |t.heard.positions| then |t.heard.positions| - |t.bid.positions| else 0
  }

  lemma OpeningLine(w: World, order: seq<Agent>, round: nat)
    ensures Say(w, round, [RoundStart(Names(order))]) == w.(log := w.log + [Stamped(round, RoundStart(Names(order)))])
  {
    OneLine(round, RoundStart(Names(order)));
    hide Stamp, Names;
  }

  lemma ScanKeeps(w: World, x: World, round: nat)
    requires ScanRecorded(w, x, round)
    ensures SameRulings(w, x) && w.deadlocks <= x.deadlocks && x.positions == w.positions && x.ledger == w.ledger && x.bank == w.bank
  {
    hide D.Scan, ListsContests;
  }

  lemma BidsKeep(cfg: Config, w: World, x: World, order: seq<Agent>, round: nat)
    requires BidsOpened(cfg, w, x, order, round)
    ensures SameRulings(w, x) && x.deadlocks == w.deadlocks && x.positions == w.positions && x.bank == w.bank
  {
    hide OpenAll, ProposalsAt, AllReady;
  }

  /** The stages of a round that gets as far as its scan. */
  ghost function StagesOf(cfg: Config, w: World, round: nat): Stages
    requires cfg.agents != [] && round >= 1
  {
    var order := Rotated(cfg.agents, round);
    var a := Say(w, round, [RoundStart(Names(order))]);
    var b := CommitReveal(cfg, a, order, round).world;
    var c := PositionPhase(b, order, round).world;
    var front := UntilDetect(cfg, w, round);
    Stages(order, a, b, c, front.world, AfterDetect(cfg, front.world, front.value.2, round).world)
  }

  lemma UntilDetectTells(cfg: Config, terms: Terms, w: World, round: nat)
    requires Healthy(cfg.crypto, terms, w) && round >= 1 && !UntilDetect(cfg, w, round).aborted
    ensures cfg.agents != []
    ensures var t := StagesOf(cfg, w, round);
            FirstHalf(cfg, w, t, round) && UntilDetect(cfg, w, round).value == (Tally(Commits(t, round), 0), Filed(t), Reports(t))
  {
    hide Healthy, CommitReveal, PositionPhase, Detect, AfterDetect, BidsOpened, AllHeard, ScanRecorded, ProposalsAt, Rotates, Names, Rotated, Stamp;
    var order := Rotated(cfg.agents, round);
    RotatedRotates(cfg.agents, round);
    OpeningLine(w, order, round);
    var a := Say(w, round, [RoundStart(Names(order))]);
    FineSay(cfg.crypto, terms, w, round, [RoundStart(Names(order))]);
    FineHealthy(cfg.crypto, terms, w, a);
    BidsTell(cfg, terms, a, order, round);
    var b := CommitReveal(cfg, a, order, round).world;
    BidsKeep(cfg, a, b, order, round);
    PhaseTells(b, order, round);
    var c := PositionPhase(b, order, round).world;
    DetectTells(c, round);
    ScanKeeps(c, Detect(c, round).world, round);
  }

  /** What a round that is not aborted amounts to, and when it is the last. */
  lemma RoundTells(cfg: Config, terms: Terms, w: World, round: nat)
    requires Healthy(cfg.crypto, terms, w) && (terms.cited ==> ResolvesSafely(cfg)) && round >= 1 && !Round(cfg, w, round).aborted
    ensures cfg.agents != []
    ensures exists t :: FirstHalf(cfg, w, t, round) && SecondHalf(cfg, t, Round(cfg, w, round).world, round)
                        && (Round(cfg, w, round).value <==> Idle(t.asked, Commits(t, round), Filed(t)))
  {
    hide Healthy, UntilDetect, MediateAll, CloseRound, FirstHalf, AllAsked, ResolvesSafely, Commits, Filed, Reports, Idle, Closed;
    UntilDetectTells(cfg, terms, w, round);
    FineUntilDetect(cfg, terms, w, round);
    var front := UntilDetect(cfg, w, round);
    FineHealthy(cfg.crypto, terms, w, front.world);
    var t := StagesOf(cfg, w, round);
    if cfg.mediator.Some? { MediateTells(cfg, terms, cfg.mediator.value, front.world, Reports(t), round); }
    CloseTells(t.asked, Tally(Commits(t, round), 0), Filed(t), |Reports(t)|, round);
    assert FirstHalf(cfg, w, t, round) && SecondHalf(cfg, t, Round(cfg, w, round).world, round);
  }

  /**
   * In a round with a mediator: what the round adds to the deadlocks on record is what the scan reported; the mediator is
   * asked about each of these in turn, on the positions that concern it and the view of the moment, and each answer
   * takes effect; and the ruling numbers grow by exactly as many.
   */
  lemma RoundAsksMediator(cfg: Config, terms: Terms, m: Mediator, w: World, round: nat)
    requires Healthy(cfg.crypto, terms, w) && (terms.cited ==> ResolvesSafely(cfg)) && round >= 1 && !Round(cfg, w, round).aborted
    requires cfg.mediator == Some(m)
    ensures var x := Round(cfg, w, round).world;
            && w.deadlocks <= x.deadlocks && x.rulingSeq == w.rulingSeq + |x.deadlocks| - |w.deadlocks|
            && exists scanned, asked :: AllAsked(cfg, m, scanned, asked, x.deadlocks[|w.deadlocks|..], round) && scanned.rulingSeq == w.rulingSeq
                                        && scanned.deadlocks == x.deadlocks && asked == x.(log := asked.log) && asked.log <= x.log
  {
    hide Healthy, UntilDetect, Round, AllAsked, ResolvesSafely, Commits, Filed, BidsOpened, AllHeard, ScanRecorded, Rotates, Names;
    RoundTells(cfg, terms, w, round);
    var x := Round(cfg, w, round).world;
    var t :| FirstHalf(cfg, w, t, round) && SecondHalf(cfg, t, x, round);
    ScanKeeps(t.heard, t.scanned, round);
    AskedKeeps(cfg, m, t.scanned, t.asked, Reports(t), round);
    assert x.deadlocks[|w.deadlocks|..] == Reports(t);
  }

  lemma {:induction false} AskedKeepsFrom(cfg: Config, m: Mediator, vs: seq<World>, ds: seq<Deadlock>, round: nat, k: nat)
    requires AskedInTurn(cfg, m, vs, ds, round) && k <= |ds|
    ensures vs[k].deadlocks == vs[0].deadlocks
    decreases k
  {
    hide Asked;
    if k > 0 {
      AskedKeepsFrom(cfg, m, vs, ds, round, k - 1);
      AskedKeepsOne(cfg, m, vs[k-1], vs[k], ds[k-1], round);
    }
  }

  lemma AskedKeepsOne(cfg: Config, m: Mediator, w: World, x: World, dl: Deadlock, round: nat)
    requires Asked(cfg, m, w, x, dl, round)
    ensures x.deadlocks == w.deadlocks
  {
    hide Answered, AllThatConcern, MediatorViewFor;
    var qs :| AllThatConcern(w.positions, dl, qs) && Answered(cfg, w, x, m.rule(dl, qs, MediatorViewFor(w, round, qs, [dl])), round, Some(dl));
    AnswerNumbers(cfg, w, x, m.rule(dl, qs, MediatorViewFor(w, round, qs, [dl])), round, Some(dl));
  }

  lemma AskedKeeps(cfg: Config, m: Mediator, w: World, x: World, ds: seq<Deadlock>, round: nat)
    requires AllAsked(cfg, m, w, x, ds, round)
    ensures x.deadlocks == w.deadlocks
  {
    hide Asked;
    var vs :| AskedInTurn(cfg, m, vs, ds, round) && vs[0] == w && vs[|ds|] == x;
    AskedKeepsFrom(cfg, m, vs, ds, round, |ds|);
  }
}
