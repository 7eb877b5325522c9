/** The society object: a round loop over the shared ledger, bank, detector and log, equal to the engine on values. */
module SocietyObject {
  import opened Order
  import opened Schemas
  import opened Rounds
  import opened ChainLog
  import opened LedgerObject
  import opened BankObject
  import opened DetectorObject
  import L = Ledger
  import B = Bank
  import D = Detector

  class Society {
    const cfg: Config
    const ledger: ClaimLedger
    const bank: CredibilityBank
    const detector: DeadlockDetector
    const log: ChainLog
    var positions: seq<(nat, Position)>
    var deadlocks: seq<Deadlock>
    var rulings: seq<SignedRuling>
    var rulingSeq: nat
    var rejections: nat

    /** Ledger, bank and society share one open log. */
    ghost predicate Valid()
      reads this, log
    {
      ledger.log == log && bank.log == log && ledger.crypto == cfg.crypto && log.Valid() && log.Lines() != []
    }

    function Now(): World
      reads this, ledger, bank, detector, log
    {
      World(ledger.Value(), bank.Value(), detector.Value(), log.Lines(), positions, deadlocks, rulings, rulingSeq, rejections)
    }

    constructor (cfg: Config, ledger: ClaimLedger, bank: CredibilityBank, detector: DeadlockDetector)
      requires ledger.Valid() && bank.log == ledger.log && ledger.crypto == cfg.crypto
      ensures Valid() && this.cfg == cfg && this.ledger == ledger && this.bank == bank && this.detector == detector && this.log == ledger.log
      ensures Now() == World(ledger.Value(), bank.Value(), detector.Value(), ledger.log.Lines(), [], [], [], 0, 0)
    {
      this.cfg, this.ledger, this.bank, this.detector, this.log := cfg, ledger, bank, detector, ledger.log;
      positions, deadlocks, rulings, rulingSeq, rejections := [], [], [], 0, 0;
    }

    method Write(events: seq<Event>, round: nat)
      requires Valid()
      modifies log
      ensures Valid() && Now() == Say(old(Now()), round, events)
    {
      hide log.Valid, log.Lines, Stamp;
      NoStamps(round);
      for i := 0 to |events|
        invariant Valid() && log.Lines() == old(log.Lines()) + Stamp(round, events[..i])
      {
        ledger.Emit(events[i], round);
        assert events[..i+1] == events[..i] + [events[i]];
        Stamps2(round, events[..i], [events[i]]);
      }
      assert events[..|events|] == events;
    }

    // ---------------------------------------------------------------- commit and reveal

    /** One agent's bids, sealed in order. */
    method SealBids(name: Name, ps: seq<Proposal>, round: nat) returns (bids: seq<Bid>, aborted: bool)
      requires Valid()
      modifies ledger, log
      ensures Valid() && SealAll(cfg, old(Now()), name, ps, round) == Out(Now(), bids, aborted)
    {
      hide log.Valid, log.Lines, Stamp, SealAll;
      bids, aborted := [], false;
      ghost var w0 := Now();
      SealStart(cfg, w0, name, ps, round);
      for i := 0 to |ps|
        invariant Valid() && SealRest(cfg, w0, name, ps, round, i, Now(), bids)
      {
        hide SealRest;
        SealStep(cfg, w0, name, ps, round, i, Now(), bids);
        if ps[i].agent != name { return bids, true; }
        ghost var w := Now();
        var nonce := cfg.nonce(ledger.commitSeq + 1);
        var id := ledger.SealAndCommit(ps[i], nonce, round);
        assert Now() == Seal(cfg, w, ps[i], round);
        bids := bids + [Bid(ps[i].agent, ps[i], id, nonce)];
      }
      SealEnd(cfg, w0, name, ps, round, Now(), bids);
    }

    /** Everyone seals before anyone opens. */
    method SealEveryone(order: seq<Agent>, round: nat) returns (bids: seq<Bid>, aborted: bool)
      requires Valid()
      modifies ledger, log
      ensures Valid() && CommitPhase(cfg, old(Now()), order, round) == Out(Now(), bids, aborted)
    {
      hide log.Valid, log.Lines, Stamp, SealAll, CommitPhase, ViewFor;
      bids, aborted := [], false;
      ghost var w0 := Now();
      CommitStart(cfg, w0, order, round);
      for i := 0 to |order|
        invariant Valid() && CommitRest(cfg, w0, order, round, i, Now(), bids)
      {
        hide CommitRest;
        var more;
        CommitStep(cfg, w0, order, round, i, Now(), bids);
        var view := ViewFor(Now(), order[i].name, round);
        more, aborted := SealBids(order[i].name, order[i].propose(view), round);
        bids := bids + more;
        if aborted { return; }
      }
      CommitEnd(cfg, w0, order, round, Now(), bids);
    }

    /** Opens the bids in order; a ledger error is noted, an integrity violation ends the run. */
    method OpenBids(bids: seq<Bid>, round: nat) returns (rejected: nat, aborted: bool)
      requires Valid()
      modifies ledger, log
      ensures Valid() && RevealPhase(cfg, old(Now()), bids, round) == Out(Now(), rejected, aborted)
    {
      hide log.Valid, log.Lines, Stamp, RevealPhase, L.Reveal;
      rejected, aborted := 0, false;
      ghost var w0 := Now();
      RevealStart(cfg, w0, bids, round);
      for i := 0 to |bids|
        invariant Valid() && RevealRest(cfg, w0, bids, round, i, Now(), rejected)
      {
        hide RevealRest;
        ghost var w := Now();
        RevealStep(cfg, w0, bids, round, i, w, rejected);
        var out, bad := ledger.OpenBid(bids[i].commitment, bids[i].proposal, bids[i].nonce, round);
        assert Now() == OnLedger(w, Open(cfg, w, bids[i], round), round);
        if out == L.IntegrityViolation { return rejected, true; }
        if out == L.LedgerError { Write([ClaimError(bids[i].agent, bids[i].commitment)], round); }
        else if bad { rejected := rejected + 1; }
      }
      RevealEnd(cfg, w0, bids, round, Now(), rejected);
    }

    method CommitAndReveal(order: seq<Agent>, round: nat) returns (tally: Tally, aborted: bool)
      requires Valid()
      modifies this`rejections, ledger, log
      ensures Valid() && CommitReveal(cfg, old(Now()), order, round) == Out(Now(), tally, aborted)
    {
      hide log.Valid, log.Lines, CommitPhase, RevealPhase;
      var bids, rejected;
      bids, aborted := SealEveryone(order, round);
      if aborted { return Tally(0, 0), true; }
      rejected, aborted := OpenBids(bids, round);
      if aborted { return Tally(0, 0), true; }
      rejections := rejections + rejected;
      tally := Tally(|bids|, rejected);
    }

    // ---------------------------------------------------------------- positions

    /** A position's effect: a paid challenge, a release, a withdrawal, a note, or none. */
    method Process(pos: Position, round: nat) returns (aborted: bool)
      requires Valid()
      modifies ledger, bank, log
      ensures Valid() && ProcessPosition(old(Now()), pos, round) == Out(Now(), (), aborted)
    {
      hide log.Valid, log.Lines, Stamp, L.Release, L.Withdraw, B.OpenContest;
      aborted := false;
      if pos.target !in ledger.claims {
        Write([PositionNote(pos.agent, pos.target)], round);
        return;
      }
      var target := ledger.claims[pos.target];
      match pos.stance
      case Block =>
        if target.proposal.agent == pos.agent {
          Write([PositionNote(pos.agent, pos.target)], round);
        } else if target.status == Granted {
          var out := bank.OpenContest(pos, round);
          aborted := out == B.CurrencyError;
        }
      case Yield =>
        if target.proposal.agent == pos.agent {
          if target.status == Granted {
            var out := ledger.Release(pos.agent, pos.target, pos.release, round);
            aborted := out != L.Ok;
          } else if target.status == Blocked {
            var out := ledger.Withdraw(pos.agent, pos.target, round);
          }
        }
      case Support =>
    }

    method FilePositions(name: Name, ps: seq<Position>, round: nat) returns (filed: nat, aborted: bool)
      requires Valid()
      modifies this`positions, ledger, bank, log
      ensures Valid() && FileAll(old(Now()), name, ps, round) == Out(Now(), filed, aborted)
    {
      hide log.Valid, log.Lines, Stamp, FileAll, ProcessPosition;
      filed, aborted := 0, false;
      ghost var w0 := Now();
      FileStart(w0, name, ps, round);
      for i := 0 to |ps|
        invariant Valid() && FileRest(w0, name, ps, round, i, Now(), filed)
      {
        hide FileRest;
        ghost var w := Now();
        FileStep(w0, name, ps, round, i, w, filed);
        if ps[i].agent != name { return filed, true; }
        Write([PositionFiled(ps[i])], round);
        positions := positions + [(round, ps[i])];
        assert Now() == File(w, ps[i], round);
        aborted := Process(ps[i], round);
        if aborted { return filed, true; }
        filed := filed + 1;
      }
      FileEnd(w0, name, ps, round, Now(), filed);
    }

    method HearEveryone(order: seq<Agent>, round: nat) returns (filed: nat, aborted: bool)
      requires Valid()
      modifies this`positions, ledger, bank, log
      ensures Valid() && PositionPhase(old(Now()), order, round) == Out(Now(), filed, aborted)
    {
      hide log.Valid, log.Lines, Stamp, FileAll, PositionPhase, ViewFor;
      filed, aborted := 0, false;
      ghost var w0 := Now();
      HearStart(w0, order, round);
      for i := 0 to |order|
        invariant Valid() && HearRest(w0, order, round, i, Now(), filed)
      {
        hide HearRest;
        HearStep(w0, order, round, i, Now(), filed);
        var view := ViewFor(Now(), order[i].name, round);
        var more;
        more, aborted := FilePositions(order[i].name, order[i].respond(view), round);
        filed := filed + more;
        if aborted { return; }
      }
      HearEnd(w0, order, round, Now(), filed);
    }

    /** Scans for deadlocks and records them. */
    method LookForDeadlocks(round: nat) returns (ds: seq<Deadlock>)
      requires Valid()
      modifies this`deadlocks, detector, log
      ensures Valid() && Detect(old(Now()), round) == Out(Now(), ds, false)
    {
      hide log.Valid, log.Lines, Stamp, D.Scan, ContestsView;
      ghost var w := Now();
      ds := detector.Scan(ledger.Value(), Challenges(bank.Value()), round);
      deadlocks := deadlocks + ds;
      Write(Announce(ds), round);
    }

    // ---------------------------------------------------------------- rulings

    /** Keeps the citations the resolver knows; without a resolver all are kept. */
    method ResolveCitations(r: RulingFields, ruling: nat) returns (res: Resolved)
      ensures res == ResolveAll(cfg, r, ruling)
    {
      if cfg.resolver.None? { return Resolved(r.citations, map[], []); }
      var resolver, cs := cfg.resolver.value, r.citations;
      res := Resolved([], map[], []);
      ResolveStart(resolver, cs, ruling);
      for i := 0 to |cs|
        invariant ResolveRest(resolver, cs, ruling, i, res)
      {
        hide ResolveRest;
        ResolveStep(resolver, cs, ruling, i, res);
        match resolver(cs[i])
        case None => res := res.(dropped := res.dropped + [CitationDropped(ruling, cs[i])]);
        case Some(h) => res := res.(valid := res.valid + [cs[i]], hashes := res.hashes[cs[i] := h]);
      }
      ResolveEnd(resolver, cs, ruling, res);
    }

    /** The ops one by one; what the ledger refuses is noted and skipped. */
    method ApplyEach(ops: seq<RulingOp>, ruling: nat, round: nat) returns (aborted: bool)
      requires Valid()
      modifies ledger, log
      ensures Valid() && ApplyOps(old(Now()), ops, ruling, round) == Out(Now(), (), aborted)
    {
      hide log.Valid, log.Lines, Stamp, L.RuleOp;
      aborted := false;
      ghost var w0 := Now();
      assert ops[0..] == ops;
      for i := 0 to |ops|
        invariant Valid() && ApplyOps(w0, ops, ruling, round) == ApplyOps(Now(), ops[i..], ruling, round)
      {
        ghost var w := Now();
        assert ops[i..][0] == ops[i] && ops[i..][1..] == ops[i+1..];
        var out := ledger.RuleOne(ops[i], ruling, round);
        assert Now() == OnLedger(w, L.RuleOp(w.ledger, ops[i], ruling, round), round);
        if out == L.IntegrityViolation { return true; }
        if out == L.LedgerError { Write([OpRejected(ruling, ops[i])], round); }
      }
    }

    /** Settles the open contests a ruling touches: credit for winners, burns for losers, refunds for the rest. */
    method SettleContests(xs: seq<ContestView>, r: RulingFields, touched: set<nat>, round: nat) returns (aborted: bool)
      requires Valid()
      modifies bank, log
      ensures Valid() && SettleAll(old(Now()), xs, r, touched, round) == Out(Now(), (), aborted)
    {
      hide log.Valid, log.Lines, Stamp, B.Settle, B.VoidContest;
      NoStamps(round);
      aborted := false;
      ghost var w0 := Now();
      assert xs[0..] == xs;
      for i := 0 to |xs|
        invariant Valid() && SettleAll(w0, xs, r, touched, round) == SettleAll(Now(), xs[i..], r, touched, round)
      {
        ghost var w := Now();
        assert xs[i..][0] == xs[i] && xs[i..][1..] == xs[i+1..];
        assert w.log + [] == w.log;
        var out := B.Done;
        if xs[i].agent in r.winners { out := bank.Settle(xs[i].id, true, round); }
        else if xs[i].agent in r.losers { out := bank.Settle(xs[i].id, false, round); }
        else if xs[i].target in touched { out := bank.VoidContest(xs[i].id, round); }
        assert Now() == OnBank(w, Rounds.Verdict(w.bank, xs[i], r, touched), round);
        if out == B.CurrencyError { return true; }
      }
    }

    method ResetStreaks(rs: seq<Name>)
      requires Valid()
      modifies detector
      ensures Valid() && Now() == old(Now()).(detector := ResetAll(old(detector.Value()), rs))
    {
      hide D.ResetResource;
      ghost var d0 := detector.Value();
      assert rs[0..] == rs;
      for i := 0 to |rs|
        invariant ResetAll(d0, rs) == ResetAll(detector.Value(), rs[i..])
      {
        assert rs[i..][0] == rs[i] && rs[i..][1..] == rs[i+1..];
        detector.Reset(rs[i]);
      }
    }

    /** Carries out a recorded ruling. */
    method EnactRuling(r: RulingFields, id: nat, round: nat, dl: Option<Deadlock>) returns (aborted: bool)
      requires Valid()
      modifies ledger, bank, detector, log
      ensures Valid() && Enacted(old(Now()), r, id, round, dl) == Out(Now(), (), aborted)
    {
      hide log.Valid, log.Lines, Stamp, ApplyOps, SettleAll, ResetAll, ContestsView, TouchedBy;
      aborted := ApplyEach(r.ops, id, round);
      if aborted { return; }
      aborted := SettleContests(ContestsView(bank.Value()), r, TouchedBy(r, dl), round);
      if aborted { return; }
      NoResets(detector.Value());
      if dl.Some? { ResetStreaks(dl.value.resources); }
    }

    /** Numbers a ruling, resolves what it cites and, if anything is left, records it, applies it and settles. */
    method SignAndApplyRuling(r: Schemas.Ruling, round: nat, dl: Option<Deadlock>) returns (aborted: bool)
      requires Valid()
      modifies this`rulings, this`rulingSeq, ledger, bank, detector, log
      ensures Valid() && SignAndApply(cfg, old(Now()), r, round, dl) == Out(Now(), (), aborted)
    {
      hide log.Valid, log.Lines, Stamp, ResolveAll, Enacted, SignAndApply, Cites;
      ghost var w0 := Now();
      SignEnacts(cfg, w0, r, round, dl);
      aborted := false;
      rulingSeq := rulingSeq + 1;
      var id := rulingSeq;
      var res := ResolveCitations(r, id);
      Write(res.dropped, round);
      if res.valid == [] {
        Write([RulingRejected(id, r.citations)], round);
        return;
      }
      var signed := SignedRuling(id, round, r.(citations := res.valid), res.hashes);
      Write([RulingSigned(signed)], round);
      rulings := rulings + [signed];
      aborted := EnactRuling(r, id, round, dl);
    }

    /** The mediator rules on each new deadlock in turn. */
    method Mediate(m: Mediator, ds: seq<Deadlock>, round: nat) returns (aborted: bool)
      requires Valid()
      modifies this`rulings, this`rulingSeq, ledger, bank, detector, log
      ensures Valid() && MediateAll(cfg, m, old(Now()), ds, round) == Out(Now(), (), aborted)
    {
      hide log.Valid, log.Lines, Stamp, SignAndApply, MediatorViewFor;
      aborted := false;
      ghost var w0 := Now();
      assert ds[0..] == ds;
      for i := 0 to |ds|
        invariant Valid() && MediateAll(cfg, m, w0, ds, round) == MediateAll(cfg, m, Now(), ds[i..], round)
      {
        assert ds[i..][0] == ds[i] && ds[i..][1..] == ds[i+1..];
        var ps := Relevant(positions, ds[i]);
        var ruling := m.rule(ds[i], ps, MediatorViewFor(Now(), round, ps, [ds[i]]));
        aborted := SignAndApplyRuling(ruling, round, Some(ds[i]));
        if aborted { return; }
      }
    }

    // ---------------------------------------------------------------- rounds

    method EndRound(t: Tally, filed: nat, found: nat, round: nat) returns (quiescent: bool)
      requires Valid()
      modifies log
      ensures Valid() && CloseRound(old(Now()), t, filed, found, round) == Out(Now(), quiescent, false)
    {
      hide log.Valid, log.Lines, Stamp, L.IdsWith, B.OpenIds;
      var blocked, open := |L.IdsWith(ledger.Value(), Blocked)|, |B.OpenIds(bank.Value())|;
      Write([RoundEnd(t.commits, t.rejected, filed, blocked, open, found)], round);
      quiescent := t.commits == 0 && filed == 0 && blocked == 0 && open == 0;
      if quiescent { Write([Quiescent], round); }
    }

    method RunRound(round: nat) returns (quiescent: bool, aborted: bool)
      requires Valid() && round >= 1
      modifies this, ledger, bank, detector, log
      ensures Valid() && Rounds.Round(cfg, old(Now()), round) == Out(Now(), quiescent, aborted)
    {
      hide log.Valid, log.Lines, Stamp, CommitReveal, PositionPhase, Detect, MediateAll, CloseRound, Rotated;
      quiescent, aborted := false, true;
      if cfg.agents == [] { return; }
      var order := Rotated(cfg.agents, round);
      Write([RoundStart(Names(order))], round);
      var tally, filed;
      tally, aborted := CommitAndReveal(order, round);
      if aborted { return; }
      filed, aborted := HearEveryone(order, round);
      if aborted { return; }
      var ds := LookForDeadlocks(round);
      if cfg.mediator.Some? {
        aborted := Mediate(cfg.mediator.value, ds, round);
        if aborted { return; }
      }
      quiescent := EndRound(tally, filed, |ds|, round);
    }

    // ---------------------------------------------------------------- finalization

    method VoidOpenContests(xs: seq<ContestView>, round: nat) returns (aborted: bool)
      requires Valid()
      modifies bank, log
      ensures Valid() && VoidContests(old(Now()), xs, round) == Out(Now(), (), aborted)
    {
      hide log.Valid, log.Lines, Stamp, B.VoidContest;
      aborted := false;
      ghost var w0 := Now();
      assert xs[0..] == xs;
      for i := 0 to |xs|
        invariant Valid() && VoidContests(w0, xs, round) == VoidContests(Now(), xs[i..], round)
      {
        ghost var w := Now();
        assert xs[i..][0] == xs[i] && xs[i..][1..] == xs[i+1..];
        var out := bank.VoidContest(xs[i].id, round);
        assert Now() == OnBank(w, B.VoidContest(w.bank, xs[i].id), round);
        if out == B.CurrencyError { return true; }
      }
    }

    method VoidBlockedClaims(ids: seq<nat>, round: nat) returns (aborted: bool)
      requires Valid()
      modifies ledger, log
      ensures Valid() && VoidClaims(old(Now()), ids, round) == Out(Now(), (), aborted)
    {
      hide log.Valid, log.Lines, Stamp, L.VoidClaim;
      aborted := false;
      ghost var w0 := Now();
      assert ids[0..] == ids;
      for i := 0 to |ids|
        invariant Valid() && VoidClaims(w0, ids, round) == VoidClaims(Now(), ids[i..], round)
      {
        ghost var w := Now();
        assert ids[i..][0] == ids[i] && ids[i..][1..] == ids[i+1..];
        var out := ledger.VoidClaim(ids[i], round);
        assert Now() == OnLedger(w, L.VoidClaim(w.ledger, ids[i], round), round);
        if out != L.Ok { return true; }
      }
    }

    /** Without a mediator: whatever is still challenged is voided, and the challenge refunded. */
    method QuarantineChallenged(xs: seq<ContestView>, round: nat) returns (aborted: bool)
      requires Valid()
      modifies ledger, bank, log
      ensures Valid() && Quarantine(old(Now()), xs, round) == Out(Now(), (), aborted)
    {
      hide log.Valid, log.Lines, Stamp, L.VoidClaim, B.VoidContest;
      aborted := false;
      ghost var w0 := Now();
      assert xs[0..] == xs;
      for i := 0 to |xs|
        invariant Valid() && Quarantine(w0, xs, round) == Quarantine(Now(), xs[i..], round)
      {
        ghost var w := Now();
        assert xs[i..][0] == xs[i] && xs[i..][1..] == xs[i+1..];
        var t := xs[i].target;
        if t in ledger.claims && ledger.claims[t].status == Granted {
          var void := ledger.VoidClaim(t, round);
          assert Now() == OnLedger(w, L.VoidClaim(w.ledger, t, round), round);
        }
        ghost var w1 := Now();
        var out := bank.VoidContest(xs[i].id, round);
        assert Now() == OnBank(w1, B.VoidContest(w1.bank, xs[i].id), round);
        if out == B.CurrencyError { return true; }
      }
    }

    method FinalizeRun(round: nat) returns (aborted: bool)
      requires Valid()
      modifies this`rulings, this`rulingSeq, ledger, bank, detector, log
      ensures Valid() && Finalize(cfg, old(Now()), round) == Out(Now(), (), aborted)
    {
      hide log.Valid, log.Lines, Stamp, SignAndApply, VoidContests, VoidClaims, Quarantine, ContestsView, L.IdsWith, FiatDeadlock, MediatorViewFor, AllPositions;
      match cfg.mediator
      case Some(m) =>
        var dl := FiatDeadlock(Now(), round);
        var ruling := m.fiat(MediatorViewFor(Now(), round, AllPositions(positions), [dl]));
        Write([FiatCalled], round);
        aborted := SignAndApplyRuling(ruling, round, Some(dl));
        if aborted { return; }
        aborted := VoidOpenContests(ContestsView(bank.Value()), round);
        if aborted { return; }
        aborted := VoidBlockedClaims(L.IdsWith(ledger.Value(), Blocked), round);
      case None =>
        Write([SafetyFinalize], round);
        aborted := QuarantineChallenged(ContestsView(bank.Value()), round);
        if aborted { return; }
        aborted := VoidBlockedClaims(L.IdsWith(ledger.Value(), Blocked), round);
    }

    method FinishRun(rounds: nat, quiescent: bool) returns (run: Rounds.Run)
      requires Valid()
      modifies this`rulings, this`rulingSeq, ledger, bank, detector, log
      ensures Valid() && run == Finish(cfg, old(Now()), rounds, quiescent) && run.world == Now()
    {
      hide log.Valid, log.Lines, Stamp, Finalize, L.ManifestNow;
      if !quiescent {
        var aborted := FinalizeRun(rounds);
        if aborted { return Aborted(Now()); }
      }
      var m := L.ManifestNow(ledger.Value());
      Write([ManifestRecorded(m, ManifestHash(cfg.crypto, m), rounds, quiescent)], rounds);
      run := Returned(Now(), rounds, quiescent);
    }

    /** Rounds until quiescence or the cap, then the manifest. */
    method Run() returns (run: Rounds.Run)
      requires Valid()
      modifies this, ledger, bank, detector, log
      ensures Valid() && run == RunSociety(cfg, old(Now())) && run.world == Now()
    {
      hide log.Valid, log.Lines, Stamp, Rounds.Round, Finish;
      ghost var w0 := Now();
      var round := 1;
      while round <= cfg.maxRounds
        invariant Valid() && 1 <= round <= cfg.maxRounds + 1 && RunFrom(cfg, w0, 1) == RunFrom(cfg, Now(), round)
        decreases cfg.maxRounds + 1 - round
      {
        var quiescent, aborted := RunRound(round);
        if aborted { return Aborted(Now()); }
        if quiescent {
          run := FinishRun(round, true);
          return;
        }
        round := round + 1;
      }
      run := FinishRun(round - 1, false);
    }
  }

  // ---------------------------------------------------------------- the loops so far

  /** What sealing the rest of a list would still do. */
  ghost predicate SealRest(cfg: Config, w0: World, name: Name, ps: seq<Proposal>, round: nat, i: nat, w: World, bids: seq<Bid>)
    requires i <= |ps|
  {
    var rest := SealAll(cfg, w, name, ps[i..], round);
    SealAll(cfg, w0, name, ps, round) == Out(rest.world, bids + rest.value, rest.aborted)
  }

  lemma SealStart(cfg: Config, w: World, name: Name, ps: seq<Proposal>, round: nat)
    ensures SealRest(cfg, w, name, ps, round, 0, w, [])
  {
    hide SealAll;
    assert ps[0..] == ps && [] + SealAll(cfg, w, name, ps, round).value == SealAll(cfg, w, name, ps, round).value;
  }

  lemma SealStep(cfg: Config, w0: World, name: Name, ps: seq<Proposal>, round: nat, i: nat, w: World, bids: seq<Bid>)
    requires i < |ps| && SealRest(cfg, w0, name, ps, round, i, w, bids)
    ensures if ps[i].agent != name then SealAll(cfg, w0, name, ps, round) == Out(w, bids, true)
            else SealRest(cfg, w0, name, ps, round, i + 1, Seal(cfg, w, ps[i], round), bids + [NextBid(cfg, w, ps[i])])
  {
    hide Seal;
    assert ps[i..][0] == ps[i] && ps[i..][1..] == ps[i+1..];
    if ps[i].agent != name {
      assert bids + [] == bids;
    } else {
      var rest := SealAll(cfg, Seal(cfg, w, ps[i], round), name, ps[i+1..], round);
      assert bids + ([NextBid(cfg, w, ps[i])] + rest.value) == (bids + [NextBid(cfg, w, ps[i])]) + rest.value;
    }
  }

  lemma SealEnd(cfg: Config, w0: World, name: Name, ps: seq<Proposal>, round: nat, w: World, bids: seq<Bid>)
    requires SealRest(cfg, w0, name, ps, round, |ps|, w, bids)
    ensures SealAll(cfg, w0, name, ps, round) == Out(w, bids, false)
  {
    assert bids + [] == bids;
  }

  ghost predicate CommitRest(cfg: Config, w0: World, order: seq<Agent>, round: nat, i: nat, w: World, bids: seq<Bid>)
    requires i <= |order|
  {
    var rest := CommitPhase(cfg, w, order[i..], round);
    CommitPhase(cfg, w0, order, round) == Out(rest.world, bids + rest.value, rest.aborted)
  }

  lemma CommitStart(cfg: Config, w: World, order: seq<Agent>, round: nat)
    ensures CommitRest(cfg, w, order, round, 0, w, [])
  {
    hide CommitPhase;
    assert order[0..] == order && [] + CommitPhase(cfg, w, order, round).value == CommitPhase(cfg, w, order, round).value;
  }

  lemma CommitStep(cfg: Config, w0: World, order: seq<Agent>, round: nat, i: nat, w: World, bids: seq<Bid>)
    requires i < |order| && CommitRest(cfg, w0, order, round, i, w, bids)
    ensures var one := SealAll(cfg, w, order[i].name, order[i].propose(ViewFor(w, order[i].name, round)), round);
            if one.aborted then CommitPhase(cfg, w0, order, round) == Out(one.world, bids + one.value, true)
            else CommitRest(cfg, w0, order, round, i + 1, one.world, bids + one.value)
  {
    hide SealAll, ViewFor;
    assert order[i..][0] == order[i] && order[i..][1..] == order[i+1..];
    var one := SealAll(cfg, w, order[i].name, order[i].propose(ViewFor(w, order[i].name, round)), round);
    if !one.aborted {
      var rest := CommitPhase(cfg, one.world, order[i+1..], round);
      assert bids + (one.value + rest.value) == (bids + one.value) + rest.value;
    }
  }

  lemma CommitEnd(cfg: Config, w0: World, order: seq<Agent>, round: nat, w: World, bids: seq<Bid>)
    requires CommitRest(cfg, w0, order, round, |order|, w, bids)
    ensures CommitPhase(cfg, w0, order, round) == Out(w, bids, false)
  {
    assert bids + [] == bids;
  }

  // every loop below follows one pattern: what is left to do, on top of what was done

  ghost predicate RevealRest(cfg: Config, w0: World, bids: seq<Bid>, round: nat, i: nat, w: World, rejected: nat)
    requires i <= |bids|
  {
    var rest := RevealPhase(cfg, w, bids[i..], round);
    RevealPhase(cfg, w0, bids, round) == Out(rest.world, rejected + rest.value, rest.aborted)
  }

  lemma RevealStart(cfg: Config, w: World, bids: seq<Bid>, round: nat)
    ensures RevealRest(cfg, w, bids, round, 0, w, 0)
  {
    assert bids[0..] == bids;
  }

  lemma RevealStep(cfg: Config, w0: World, bids: seq<Bid>, round: nat, i: nat, w: World, rejected: nat)
    requires i < |bids| && RevealRest(cfg, w0, bids, round, i, w, rejected)
    ensures var st := Open(cfg, w, bids[i], round);
            if st.out == L.IntegrityViolation then RevealPhase(cfg, w0, bids, round) == Out(OpenOne(cfg, w, bids[i], round), rejected, true)
            else RevealRest(cfg, w0, bids, round, i + 1, OpenOne(cfg, w, bids[i], round), rejected + if st.out == L.Ok && IsRejected(st) then 1 else 0)
  {
    hide Open, OpenOne;
    assert bids[i..][0] == bids[i] && bids[i..][1..] == bids[i+1..];
  }

  lemma RevealEnd(cfg: Config, w0: World, bids: seq<Bid>, round: nat, w: World, rejected: nat)
    requires RevealRest(cfg, w0, bids, round, |bids|, w, rejected)
    ensures RevealPhase(cfg, w0, bids, round) == Out(w, rejected, false)
  {}

  ghost predicate FileRest(w0: World, name: Name, ps: seq<Position>, round: nat, i: nat, w: World, filed: nat)
    requires i <= |ps|
  {
    var rest := FileAll(w, name, ps[i..], round);
    FileAll(w0, name, ps, round) == Out(rest.world, filed + rest.value, rest.aborted)
  }

  lemma FileStart(w: World, name: Name, ps: seq<Position>, round: nat)
    ensures FileRest(w, name, ps, round, 0, w, 0)
  {
    hide FileAll;
    assert ps[0..] == ps;
  }

  lemma FileStep(w0: World, name: Name, ps: seq<Position>, round: nat, i: nat, w: World, filed: nat)
    requires i < |ps| && FileRest(w0, name, ps, round, i, w, filed)
    ensures var one := ProcessPosition(File(w, ps[i], round), ps[i], round);
            if ps[i].agent != name then FileAll(w0, name, ps, round) == Out(w, filed, true)
            else if one.aborted then FileAll(w0, name, ps, round) == Out(one.world, filed, true)
            else FileRest(w0, name, ps, round, i + 1, one.world, filed + 1)
  {
    hide ProcessPosition, File;
    assert ps[i..][0] == ps[i] && ps[i..][1..] == ps[i+1..];
  }

  lemma FileEnd(w0: World, name: Name, ps: seq<Position>, round: nat, w: World, filed: nat)
    requires FileRest(w0, name, ps, round, |ps|, w, filed)
    ensures FileAll(w0, name, ps, round) == Out(w, filed, false)
  {}

  ghost predicate HearRest(w0: World, order: seq<Agent>, round: nat, i: nat, w: World, filed: nat)
    requires i <= |order|
  {
    var rest := PositionPhase(w, order[i..], round);
    PositionPhase(w0, order, round) == Out(rest.world, filed + rest.value, rest.aborted)
  }

  lemma HearStart(w: World, order: seq<Agent>, round: nat)
    ensures HearRest(w, order, round, 0, w, 0)
  {
    hide PositionPhase;
    assert order[0..] == order;
  }

  lemma HearStep(w0: World, order: seq<Agent>, round: nat, i: nat, w: World, filed: nat)
    requires i < |order| && HearRest(w0, order, round, i, w, filed)
    ensures var one := FileAll(w, order[i].name, order[i].respond(ViewFor(w, order[i].name, round)), round);
            if one.aborted then PositionPhase(w0, order, round) == Out(one.world, filed + one.value, true)
            else HearRest(w0, order, round, i + 1, one.world, filed + one.value)
  {
    hide FileAll, ViewFor;
    assert order[i..][0] == order[i] && order[i..][1..] == order[i+1..];
  }

  lemma HearEnd(w0: World, order: seq<Agent>, round: nat, w: World, filed: nat)
    requires HearRest(w0, order, round, |order|, w, filed)
    ensures PositionPhase(w0, order, round) == Out(w, filed, false)
  {}

  ghost predicate ResolveRest(resolver: string -> Option<Bytes>, cs: seq<string>, ruling: nat, i: nat, r: Resolved)
    requires i <= |cs|
  {
    var rest := Resolve(resolver, cs[i..], ruling);
    Resolve(resolver, cs, ruling) == Resolved(r.valid + rest.valid, r.hashes + rest.hashes, r.dropped + rest.dropped)
  }

  lemma ResolveStart(resolver: string -> Option<Bytes>, cs: seq<string>, ruling: nat)
    ensures ResolveRest(resolver, cs, ruling, 0, Resolved([], map[], []))
  {
    hide Resolve;
    assert cs[0..] == cs;
    var all := Resolve(resolver, cs, ruling);
    assert [] + all.valid == all.valid && map[] + all.hashes == all.hashes && [] + all.dropped == all.dropped;
  }

  lemma ResolveStep(resolver: string -> Option<Bytes>, cs: seq<string>, ruling: nat, i: nat, r: Resolved)
    requires i < |cs| && ResolveRest(resolver, cs, ruling, i, r)
    ensures match resolver(cs[i])
            case None => ResolveRest(resolver, cs, ruling, i + 1, r.(dropped := r.dropped + [CitationDropped(ruling, cs[i])]))
            case Some(h) => ResolveRest(resolver, cs, ruling, i + 1, r.(valid := r.valid + [cs[i]], hashes := r.hashes[cs[i] := h]))
  {
    assert cs[i..][0] == cs[i] && cs[i..][1..] == cs[i+1..];
    var rest := Resolve(resolver, cs[i+1..], ruling);
    match resolver(cs[i])
    case None =>
      assert r.dropped + ([CitationDropped(ruling, cs[i])] + rest.dropped) == (r.dropped + [CitationDropped(ruling, cs[i])]) + rest.dropped;
    case Some(h) =>
      assert r.valid + ([cs[i]] + rest.valid) == (r.valid + [cs[i]]) + rest.valid;
      assert r.hashes + (map[cs[i] := h] + rest.hashes) == r.hashes[cs[i] := h] + rest.hashes;
  }

  lemma ResolveEnd(resolver: string -> Option<Bytes>, cs: seq<string>, ruling: nat, r: Resolved)
    requires ResolveRest(resolver, cs, ruling, |cs|, r)
    ensures Resolve(resolver, cs, ruling) == r
  {
    assert r.valid + [] == r.valid && r.hashes + map[] == r.hashes && r.dropped + [] == r.dropped;
  }

  lemma NoResets(d: D.State)
    ensures ResetAll(d, []) == d
  {}

  /** What a recorded ruling does. */
  function Enacted(w: World, r: RulingFields, id: nat, round: nat, dl: Option<Deadlock>): Out<()> {
    var w2 := ApplyOps(w, r.ops, id, round);
    if w2.aborted then w2
    else
      var w3 := SettleAll(w2.world, ContestsView(w2.world.bank), r, TouchedBy(r, dl), round);
      if w3.aborted then w3
      else Out(w3.world.(detector := ResetAll(w3.world.detector, if dl.Some? then dl.value.resources else [])), (), false)
  }

  lemma SignEnacts(cfg: Config, w0: World, r: Schemas.Ruling, round: nat, dl: Option<Deadlock>)
    ensures var id := w0.rulingSeq + 1;
            var res := ResolveAll(cfg, r, id);
            var w := Say(w0.(rulingSeq := id), round, res.dropped);
            var signed := SignedRuling(id, round, r.(citations := res.valid), res.hashes);
            SignAndApply(cfg, w0, r, round, dl)
            == if res.valid == [] then Out(Say(w, round, [RulingRejected(id, r.citations)]), (), false)
               else Enacted(Say(w, round, [RulingSigned(signed)]).(rulings := w0.rulings + [signed]), r, id, round, dl)
  {
    hide ResolveAll, ApplyOps, SettleAll, ResetAll, ContestsView, TouchedBy, Stamp, Cites;
  }
}
