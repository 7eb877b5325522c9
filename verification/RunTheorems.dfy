/** What holds of every run: the auditor accepts its log, nothing is left open, and the accounts close. */
module RunTheorems {
  import opened Order
  import opened Schemas
  import opened Books
  import opened LedgerFacts
  import opened Rounds
  import opened RoundFacts
  import opened ChainLog
  import opened AuditFacts
  import L = Ledger
  import B = Bank
  import D = Detector
  import V = Verify

  // ---------------------------------------------------------------- a fresh society

  datatype Registration = Registration(id: Name, capacity: nat, group: Option<Name>)

  function RegisterCalls(rs: seq<Registration>): (calls: seq<Call>)
    ensures |calls| == |rs|
    ensures forall i :: 0 <= i < |rs| ==> calls[i] == Call(L.DoRegister(rs[i].id, rs[i].capacity, rs[i].group), 0)
  {
    seq(|rs|, i requires 0 <= i < |rs| => Call(L.DoRegister(rs[i].id, rs[i].capacity, rs[i].group), 0))
  }

  /** Genesis, then every resource through the logged ledger; a new bank and a new detector. */
  function FreshWorld(c: Crypto, header: string, rs: seq<Registration>, budgets: map<Name, nat>, cost: nat, premium: nat, threshold: nat): World {
    var run := Play(LedgerFacts.Run(L.EMPTY, [Stamped(0, Genesis(header))]), c, RegisterCalls(rs));
    World(run.state, B.Start(budgets, cost, premium), D.Start(threshold), run.log, [], [], [], 0, 0)
  }

  lemma {:induction false} RegisterLog(r: LedgerFacts.Run, c: Crypto, calls: seq<Call>)
    requires !V.Raises(r.log) && V.RulingsCite(r.log) && r.log != [] && forall x :: x in calls ==> x.op.DoRegister?
    ensures var q := Play(r, c, calls); !V.Raises(q.log) && V.RulingsCite(q.log) && r.log <= q.log
    decreases |calls|
  {
    if calls != [] {
      assert calls[0] in calls;
      var st := L.Do(r.state, c, calls[0].op, calls[0].round);
      NotRaising(Terms(map[], true), r.log, calls[0].round, st.events);
      RegisterLog(LedgerFacts.Run(st.state, r.log + Stamp(calls[0].round, st.events)), c, calls[1..]);
    }
  }

  lemma FreshHealthy(c: Crypto, header: string, rs: seq<Registration>, budgets: map<Name, nat>, cost: nat, premium: nat, threshold: nat)
    ensures Healthy(c, Terms(budgets, true), FreshWorld(c, header, rs, budgets, cost, premium, threshold))
  {
    var log := [Stamped(0, Genesis(header))];
    var r := LedgerFacts.Run(L.EMPTY, log);
    assert AccountsOf(L.EMPTY) == BLANK;
    ReadSilent(BLANK, log);
    assert Sound(L.EMPTY) && Tells(c, log, L.EMPTY);
    PlayGood(r, c, RegisterCalls(rs));
    forall x | x in RegisterCalls(rs) ensures x.op.DoRegister? {}
    RegisterLog(r, c, RegisterCalls(rs));
    B.StartKept(budgets, cost, premium);
    D.FreshNone({});
    hide Play, Sound, Tells, B.Kept, D.Fresh, V.Raises;
  }

  // ---------------------------------------------------------------- the auditor accepts

  /** A healthy log whose last manifest is the ledger's passes every check, and raises none. */
  lemma HealthyPasses(c: Crypto, terms: Terms, w: World)
    requires Healthy(c, terms, w)
    requires terms.cited && V.LastManifest(w.log) == Some(V.Recorded(L.ManifestNow(w.ledger), ManifestHash(c, L.ManifestNow(w.ledger))))
    ensures V.Passes(c, Chain(c, w.log)) && !V.Raises(w.log)
  {
    hide Sound, Tells, V.RulingsCite, V.Raises, V.LastManifest, V.Passes, B.Kept, D.Fresh, Chain;
    SoundPasses(c, w.ledger, w.log);
  }

  lemma RecordedLast(c: Crypto, w: World, rounds: nat, quiescent: bool)
    ensures var x := RecordManifest(c, w, rounds, quiescent);
            && x.ledger == w.ledger && x.bank == w.bank
            && V.LastManifest(x.log) == Some(V.Recorded(L.ManifestNow(w.ledger), ManifestHash(c, L.ManifestNow(w.ledger))))
  {
    hide L.ManifestNow;
  }

  lemma {:induction false} ReturnedRecords(cfg: Config, w: World, round: nat)
    requires round >= 1 && RunFrom(cfg, w, round).Returned?
    ensures var x := RunFrom(cfg, w, round).world;
            V.LastManifest(x.log) == Some(V.Recorded(L.ManifestNow(x.ledger), ManifestHash(cfg.crypto, L.ManifestNow(x.ledger))))
    decreases cfg.maxRounds + 1 - round
  {
    hide Round, Finalize, L.ManifestNow, V.LastManifest, RecordManifest;
    if round > cfg.maxRounds {
      RecordedLast(cfg.crypto, Finalize(cfg, w, round - 1).world, round - 1, false);
    } else {
      var out := Round(cfg, w, round);
      if out.value { RecordedLast(cfg.crypto, out.world, round, true); } else { ReturnedRecords(cfg, out.world, round + 1); }
    }
  }

  /**
   * For every society — any agents, any mediator, any cap — the log of a run that returns passes every
   * check of the auditor, hash chain included, and the auditor does not raise on it.
   */
  lemma EveryReturnedRunVerifies(cfg: Config, header: string, rs: seq<Registration>, budgets: map<Name, nat>, cost: nat, premium: nat, threshold: nat)
    requires ResolvesSafely(cfg)
    ensures var run := RunSociety(cfg, FreshWorld(cfg.crypto, header, rs, budgets, cost, premium, threshold));
            run.Returned? ==> V.Passes(cfg.crypto, Chain(cfg.crypto, run.world.log)) && !V.Raises(run.world.log)
  {
    hide Healthy, RunFrom, V.Passes, V.Raises, ResolvesSafely, Chain, V.LastManifest;
    var w := FreshWorld(cfg.crypto, header, rs, budgets, cost, premium, threshold);
    FreshHealthy(cfg.crypto, header, rs, budgets, cost, premium, threshold);
    hide FreshWorld;
    var terms := Terms(budgets, true);
    FineRun(cfg, terms, w, 1);
    var run := RunSociety(cfg, w);
    FineHealthy(cfg.crypto, terms, w, run.world);
    if run.Returned? {
      ReturnedRecords(cfg, w, 1);
      HealthyPasses(cfg.crypto, terms, run.world);
    }
  }

  /** Returned or aborted, a run leaves a sound ledger its log replays to, and has rejected no reveal. */
  lemma EveryRunStaysSound(cfg: Config, header: string, rs: seq<Registration>, budgets: map<Name, nat>, cost: nat, premium: nat, threshold: nat)
    ensures var w := FreshWorld(cfg.crypto, header, rs, budgets, cost, premium, threshold);
            var x := RunSociety(cfg, w).world;
            && Sound(x.ledger) && Evolves(w.ledger, x.ledger)
            && V.Replayed(x.log) == L.ManifestNow(x.ledger)
            && x.rejections == 0
            && D.Keyed(x.deadlocks) && NoDup(D.Keys(x.deadlocks))
  {
    hide RunFrom, Sound, Evolves, B.Kept, V.Raises;
    var w := FreshWorld(cfg.crypto, header, rs, budgets, cost, premium, threshold);
    FreshHealthy(cfg.crypto, header, rs, budgets, cost, premium, threshold);
    assert w.rejections == 0;
    hide FreshWorld;
    FineRun(cfg, Terms(budgets, false), w, 1);
  }

  /** A recorded ruling cites a source exactly when some citation that resolved is not blank. */
  lemma RecordedRulingCites(cfg: Config, r: Ruling, id: nat)
    requires cfg.resolver.Some?
    ensures Cites(ResolveAll(cfg, r, id).valid) <==>
            exists s :: s in r.citations && cfg.resolver.value(s).Some? && !Blank(s)
  {
    ResolveFacts(cfg.resolver.value, r.citations, id);
  }

  // ---------------------------------------------------------------- nothing is left open

  /** Finalization only takes away: a claim keeps its status or is voided. */
  ghost predicate OnlyVoids(s: L.State, t: L.State) {
    && t.claims.Keys == s.claims.Keys
    && forall i :: i in s.claims ==> t.claims[i].status == s.claims[i].status || t.claims[i].status == Voided
  }

  lemma OnlyVoidsTrans(s: L.State, t: L.State, u: L.State)
    requires OnlyVoids(s, t) && OnlyVoids(t, u)
    ensures OnlyVoids(s, u)
  {}

  lemma VoidClaimStatus(s: L.State, id: nat, round: nat)
    requires id in s.claims && L.VoidClaim(s, id, round).out == L.Ok
    ensures var t := L.VoidClaim(s, id, round).state;
            && t.claims.Keys == s.claims.Keys && (t.claims[id].status == s.claims[id].status || t.claims[id].status == Voided)
            && forall i :: i in s.claims && i != id ==> t.claims[i].status == s.claims[i].status
  {
    hide L.Deallocate, L.Holders, L.HolderList;
  }

  /** `void_claim` of a known claim: it ends, and no other claim changes status. */
  lemma VoidClaimFacts(s: L.State, c: Crypto, id: nat, round: nat)
    requires Sound(s) && id in s.claims
    ensures var st := L.VoidClaim(s, id, round);
            && st.out == L.Ok && Sound(st.state) && OnlyVoids(s, st.state) && Terminal(st.state.claims[id].status)
            && forall i :: i in s.claims && i != id ==> st.state.claims[i].status == s.claims[i].status
  {
    hide Sound, Evolves, ReadAll, L.VoidClaim, Fair, AccountsOf;
    VoidGood(s, c, id, round);
    VoidClaimStatus(s, id, round);
  }

  lemma {:induction false} VoidClaimsFacts(c: Crypto, w: World, ids: seq<nat>, round: nat)
    requires Sound(w.ledger) && forall i :: i in ids ==> i in w.ledger.claims
    ensures var out := VoidClaims(w, ids, round);
            && !out.aborted && Sound(out.world.ledger) && OnlyVoids(w.ledger, out.world.ledger) && out.world.bank == w.bank
            && (forall i :: i in ids ==> Terminal(out.world.ledger.claims[i].status))
            && (forall i :: i in w.ledger.claims && i !in ids ==> out.world.ledger.claims[i].status == w.ledger.claims[i].status)
    decreases |ids|
  {
    hide Sound, L.VoidClaim;
    if ids != [] {
      assert ids[0] in ids;
      VoidClaimFacts(w.ledger, c, ids[0], round);
      var x := OnLedger(w, L.VoidClaim(w.ledger, ids[0], round), round);
      VoidClaimsFacts(c, x, ids[1..], round);
      assert forall i :: i in ids <==> i == ids[0] || i in ids[1..];
    }
  }

  ghost predicate NoBlocked(s: L.State) {
    forall i :: i in s.claims ==> s.claims[i].status != Blocked
  }

  ghost predicate NoneOpen(b: B.State) {
    forall x :: x in b.contests ==> b.contests[x].status != B.Open
  }

  lemma VoidAllBlocked(c: Crypto, w: World, round: nat)
    requires Sound(w.ledger)
    ensures var out := VoidClaims(w, L.IdsWith(w.ledger, Blocked), round);
            && !out.aborted && NoBlocked(out.world.ledger) && out.world.bank == w.bank
            && Sound(out.world.ledger) && OnlyVoids(w.ledger, out.world.ledger)
  {
    hide Sound, VoidClaims;
    VoidClaimsFacts(c, w, L.IdsWith(w.ledger, Blocked), round);
    hide L.IdsWith;
    var t := VoidClaims(w, L.IdsWith(w.ledger, Blocked), round).world.ledger;
    forall i | i in t.claims ensures t.claims[i].status != Blocked {
      assert i in L.IdsWith(w.ledger, Blocked) || t.claims[i].status == w.ledger.claims[i].status;
    }
  }

  /** The views of all the open contests that are still to be closed. */
  ghost predicate Covers(xs: seq<ContestView>, b: B.State) {
    && (forall x :: x in xs ==> Shows(b, x))
    && (forall i, j :: 0 <= i < j < |xs| ==> xs[i].id != xs[j].id)
    && forall id :: B.IsOpen(b, id) ==> exists x :: x in xs && x.id == id
  }

  lemma ViewCovers(b: B.State)
    ensures Covers(ContestsView(b), b)
  {
    var xs := ContestsView(b);
    forall id | B.IsOpen(b, id) ensures exists x :: x in xs && x.id == id {
      assert id in B.OpenIds(b);
      var k :| 0 <= k < |B.OpenIds(b)| && B.OpenIds(b)[k] == id;
      assert xs[k] in xs && xs[k].id == id;
    }
  }

  lemma CloseCovers(xs: seq<ContestView>, b: B.State)
    requires xs != [] && Covers(xs, b)
    ensures B.VoidContest(b, xs[0].id).out == B.Done && Covers(xs[1..], B.VoidContest(b, xs[0].id).state)
  {
    assert xs[0] in xs && Shows(b, xs[0]);
    var t := B.VoidContest(b, xs[0].id).state;
    forall x | x in xs[1..] ensures Shows(t, x) {
      var k :| 1 <= k < |xs| && xs[k] == x;
      assert x in xs && x.id != xs[0].id;
    }
    forall id | B.IsOpen(t, id) ensures exists x :: x in xs[1..] && x.id == id {
      assert B.IsOpen(b, id) && id != xs[0].id;
      var x :| x in xs && x.id == id;
      var k :| 0 <= k < |xs| && xs[k] == x;
      assert x in xs[1..];
    }
  }

  lemma {:induction false} VoidContestsFacts(w: World, xs: seq<ContestView>, round: nat)
    requires Covers(xs, w.bank)
    ensures var out := VoidContests(w, xs, round);
            !out.aborted && NoneOpen(out.world.bank) && out.world.ledger == w.ledger
    decreases |xs|
  {
    hide Covers, B.VoidContest;
    if xs == [] {
      NoneLeft(w.bank);
    } else {
      CloseCovers(xs, w.bank);
      VoidContestsFacts(OnBank(w, B.VoidContest(w.bank, xs[0].id), round), xs[1..], round);
    }
  }

  lemma NoneLeft(b: B.State)
    requires Covers([], b)
    ensures NoneOpen(b)
  {
    forall x | x in b.contests ensures b.contests[x].status != B.Open {
      assert !B.IsOpen(b, x);
    }
  }

  /** Every challenged claim ends up with nothing, and every contest is closed. */
  lemma {:induction false} QuarantineFacts(c: Crypto, w: World, xs: seq<ContestView>, round: nat)
    requires Sound(w.ledger) && Covers(xs, w.bank)
    ensures var out := Quarantine(w, xs, round);
            && !out.aborted && NoneOpen(out.world.bank) && Sound(out.world.ledger) && OnlyVoids(w.ledger, out.world.ledger)
            && forall x :: x in xs && x.target in out.world.ledger.claims ==> out.world.ledger.claims[x.target].status != Granted
    decreases |xs|
  {
    hide Sound, Covers, B.VoidContest, L.VoidClaim;
    if xs == [] {
      NoneLeft(w.bank);
    } else {
      var t := xs[0].target;
      var x := QuarantineTarget(w, t, round);
      if t in w.ledger.claims { VoidClaimFacts(w.ledger, c, t, round); }
      CloseCovers(xs, w.bank);
      var y := OnBank(x, B.VoidContest(x.bank, xs[0].id), round);
      QuarantineFacts(c, y, xs[1..], round);
      OnlyVoidsTrans(w.ledger, y.ledger, Quarantine(y, xs[1..], round).world.ledger);
      assert forall v :: v in xs <==> v == xs[0] || v in xs[1..];
    }
  }

  lemma FinalizeFacts(cfg: Config, terms: Terms, w: World, round: nat)
    requires Healthy(cfg.crypto, terms, w) && (terms.cited ==> ResolvesSafely(cfg))
    ensures var out := Finalize(cfg, w, round);
            !out.aborted ==> NoBlocked(out.world.ledger) && NoneOpen(out.world.bank)
  {
    hide Healthy, Sound, SignAndApply, VoidContests, VoidClaims, FiatDeadlock, Quarantine, Covers, NoBlocked, NoneOpen, OnlyVoids, ResolvesSafely, L.IdsWith, ContestsView;
    var c := cfg.crypto;
    match cfg.mediator {
      case Some(m) =>
        var dl := FiatDeadlock(w, round);
        var ruling := m.fiat(MediatorViewFor(w, round, AllPositions(w.positions), [dl]));
        var a := Say(w, round, [FiatCalled]);
        FineSay(c, terms, w, round, [FiatCalled]);
        FineHealthy(c, terms, w, a);
        FineSign(cfg, terms, a, ruling, round, Some(dl));
        var one := SignAndApply(cfg, a, ruling, round, Some(dl));
        FineHealthy(c, terms, a, one.world);
        HealthyParts(c, terms, one.world);
        ViewCovers(one.world.bank);
        VoidContestsFacts(one.world, ContestsView(one.world.bank), round);
        VoidAllBlocked(c, VoidContests(one.world, ContestsView(one.world.bank), round).world, round);
      case None =>
        var a := Say(w, round, [SafetyFinalize]);
        HealthyParts(c, terms, w);
        ViewCovers(a.bank);
        QuarantineFacts(c, a, ContestsView(a.bank), round);
        VoidAllBlocked(c, Quarantine(a, ContestsView(a.bank), round).world, round);
    }
  }

  /** A quiescent round had nothing blocked and nothing open. */
  lemma QuiescentFacts(w: World, t: Tally, positions: nat, deadlocks: nat, round: nat)
    requires CloseRound(w, t, positions, deadlocks, round).value
    ensures var x := CloseRound(w, t, positions, deadlocks, round).world; NoBlocked(x.ledger) && NoneOpen(x.bank)
  {
    assert L.IdsWith(w.ledger, Blocked) == [] && B.OpenIds(w.bank) == [];
    forall i | i in w.ledger.claims ensures w.ledger.claims[i].status != Blocked { assert i !in L.IdsWith(w.ledger, Blocked); }
    forall i | i in w.bank.contests ensures w.bank.contests[i].status != B.Open { assert i !in B.OpenIds(w.bank); }
    hide L.IdsWith, B.OpenIds;
  }

  lemma {:induction false} ReturnedIsClosed(cfg: Config, terms: Terms, w: World, round: nat)
    requires Healthy(cfg.crypto, terms, w) && (terms.cited ==> ResolvesSafely(cfg)) && round >= 1 && RunFrom(cfg, w, round).Returned?
    ensures NoBlocked(RunFrom(cfg, w, round).world.ledger) && NoneOpen(RunFrom(cfg, w, round).world.bank)
    decreases cfg.maxRounds + 1 - round
  {
    hide Healthy, ResolvesSafely, Round, Finalize, NoBlocked, NoneOpen, RecordManifest;
    if round > cfg.maxRounds {
      FinalizeFacts(cfg, terms, w, round - 1);
      RecordedLast(cfg.crypto, Finalize(cfg, w, round - 1).world, round - 1, false);
    } else {
      var out := Round(cfg, w, round);
      FineRound(cfg, terms, w, round);
      FineHealthy(cfg.crypto, terms, w, out.world);
      if out.value {
        QuiescentRound(cfg, w, round);
        RecordedLast(cfg.crypto, out.world, round, true);
      } else {
        ReturnedIsClosed(cfg, terms, out.world, round + 1);
      }
    }
  }

  lemma QuiescentRound(cfg: Config, w: World, round: nat)
    requires round >= 1 && !Round(cfg, w, round).aborted && Round(cfg, w, round).value
    ensures NoBlocked(Round(cfg, w, round).world.ledger) && NoneOpen(Round(cfg, w, round).world.bank)
  {
    hide UntilDetect, AfterDetect, CloseRound, NoBlocked, NoneOpen;
    var front := UntilDetect(cfg, w, round);
    var (tally, positions, ds) := front.value;
    var med := AfterDetect(cfg, front.world, ds, round);
    QuiescentFacts(med.world, tally, positions, |ds|, round);
  }

  /**
   * Every run that returns leaves no blocked claim and no open contest, and its balances total the budgets,
   * plus a premium for each contest won, minus a stake for each one lost.
   */
  lemma EveryReturnedRunCloses(cfg: Config, header: string, rs: seq<Registration>, budgets: map<Name, nat>, cost: nat, premium: nat, threshold: nat)
    ensures var run := RunSociety(cfg, FreshWorld(cfg.crypto, header, rs, budgets, cost, premium, threshold));
            run.Returned? ==>
              && NoBlocked(run.world.ledger) && NoneOpen(run.world.bank)
              && B.Total(run.world.bank.balances) == B.Total(budgets) + premium * |B.With(run.world.bank.contests, B.Won)|
                                                     - cost * |B.With(run.world.bank.contests, B.Lost)|
  {
    hide RunFrom, V.RulingsCite, NoBlocked, NoneOpen, B.Total, B.With;
    var w := FreshWorld(cfg.crypto, header, rs, budgets, cost, premium, threshold);
    assert w.bank.cost == cost && w.bank.premium == premium;
    FreshHealthy(cfg.crypto, header, rs, budgets, cost, premium, threshold);
    hide FreshWorld;
    var terms := Terms(budgets, false);
    FineRun(cfg, terms, w, 1);
    var run := RunSociety(cfg, w);
    FineHealthy(cfg.crypto, terms, w, run.world);
    HealthyParts(cfg.crypto, terms, run.world);
    if run.Returned? {
      ReturnedIsClosed(cfg, terms, w, 1);
      NoneOpenCounts(run.world.bank);
    }
  }

  lemma NoneOpenCounts(b: B.State)
    requires NoneOpen(b)
    ensures |B.With(b.contests, B.Open)| == 0
  {
    assert B.With(b.contests, B.Open) == {};
  }

  lemma OpenIsShown(b: B.State, id: nat)
    requires B.IsOpen(b, id)
    ensures exists x :: x in ContestsView(b) && x.target == b.contests[id].target
  {
    ViewCovers(b);
    var xs := ContestsView(b);
    var x :| x in xs && x.id == id;
    assert Shows(b, x);
  }

  lemma VoidsGrantNothing(s: L.State, t: L.State, id: nat)
    requires OnlyVoids(s, t) && (id in s.claims ==> s.claims[id].status != Granted)
    ensures id in t.claims ==> t.claims[id].status != Granted
  {}

  /** Without a mediator, a claim under an open contest at the cap keeps no allocation. */
  lemma ChallengedClaimsLoseAll(cfg: Config, terms: Terms, w: World, round: nat, id: nat)
    requires Healthy(cfg.crypto, terms, w) && cfg.mediator.None? && B.IsOpen(w.bank, id)
    ensures !Finalize(cfg, w, round).aborted
    ensures L.Holders(Finalize(cfg, w, round).world.ledger.allocs, w.bank.contests[id].target) == {}
  {
    hide Healthy, Sound, Quarantine, VoidClaims, Covers, L.IdsWith, ContestsView, NoBlocked, NoneOpen, OnlyVoids, L.Holders, B.Kept;
    var a := Say(w, round, [SafetyFinalize]);
    var target := w.bank.contests[id].target;
    var xs := ContestsView(a.bank);
    ViewCovers(a.bank);
    OpenIsShown(w.bank, id);
    var x :| x in xs && x.target == target;
    HealthyParts(cfg.crypto, terms, w);
    QuarantineFacts(cfg.crypto, a, xs, round);
    var one := Quarantine(a, xs, round);
    VoidAllBlocked(cfg.crypto, one.world, round);
    var two := VoidClaims(one.world, L.IdsWith(one.world.ledger, Blocked), round);
    VoidsGrantNothing(one.world.ledger, two.world.ledger, target);
    NotGrantedHoldsNothing(two.world.ledger, target);
    assert Finalize(cfg, w, round) == two;
  }

  lemma NotGrantedHoldsNothing(s: L.State, id: nat)
    requires Sound(s) && (id in s.claims ==> s.claims[id].status != Granted)
    ensures L.Holders(s.allocs, id) == {}
  {}

  /** The world when the rounds are used up, or when the run stops before. */
  ghost function AtCap(cfg: Config, w: World, round: nat): World
    requires round >= 1
    decreases cfg.maxRounds + 1 - round
  {
    if round > cfg.maxRounds then w
    else
      var out := Round(cfg, w, round);
      if out.aborted || out.value then out.world else AtCap(cfg, out.world, round + 1)
  }

  lemma {:induction false} CappedFinish(cfg: Config, terms: Terms, w: World, round: nat)
    requires Healthy(cfg.crypto, terms, w) && !terms.cited && 1 <= round <= cfg.maxRounds + 1
    requires RunFrom(cfg, w, round).Returned? && !RunFrom(cfg, w, round).quiescent
    ensures Healthy(cfg.crypto, terms, AtCap(cfg, w, round))
    ensures RunFrom(cfg, w, round) == Finish(cfg, AtCap(cfg, w, round), cfg.maxRounds, false)
    decreases cfg.maxRounds + 1 - round
  {
    hide Healthy, Round, Finish, ResolvesSafely;
    if round <= cfg.maxRounds {
      var out := Round(cfg, w, round);
      FineRound(cfg, terms, w, round);
      FineHealthy(cfg.crypto, terms, w, out.world);
      if out.value { QuiescentFinish(cfg, out.world, round); } else { CappedFinish(cfg, terms, out.world, round + 1); }
    }
  }

  lemma QuiescentFinish(cfg: Config, w: World, rounds: nat)
    ensures Finish(cfg, w, rounds, true).Returned? ==> Finish(cfg, w, rounds, true).quiescent
  {
    hide Finalize, RecordManifest;
  }

  lemma FinishLedger(cfg: Config, w: World, rounds: nat)
    requires Finish(cfg, w, rounds, false).Returned?
    ensures Finish(cfg, w, rounds, false).world.ledger == Finalize(cfg, w, rounds).world.ledger
  {
    hide Finalize, L.ManifestNow, Stamp;
  }

  /**
   * Every run without a mediator that ends at the cap: whatever claim was under an open contest when the rounds were used
   * up holds nothing in the world the run returns.
   */
  lemma UnmediatedRunStripsChallenged(cfg: Config, header: string, rs: seq<Registration>, budgets: map<Name, nat>, cost: nat, premium: nat,
                                      threshold: nat, id: nat)
    requires cfg.mediator.None?
    ensures var w := FreshWorld(cfg.crypto, header, rs, budgets, cost, premium, threshold);
            var (run, cap) := (RunSociety(cfg, w), AtCap(cfg, w, 1));
            run.Returned? && !run.quiescent && B.IsOpen(cap.bank, id) ==> L.Holders(run.world.ledger.allocs, cap.bank.contests[id].target) == {}
  {
    hide RunFrom, AtCap, Finish, Finalize, L.Holders, Healthy;
    var w, terms := FreshWorld(cfg.crypto, header, rs, budgets, cost, premium, threshold), Terms(budgets, false);
    FreshHealthy(cfg.crypto, header, rs, budgets, cost, premium, threshold);
    hide FreshWorld;
    Uncited(cfg.crypto, budgets, w);
    var run, cap := RunSociety(cfg, w), AtCap(cfg, w, 1);
    if run.Returned? && !run.quiescent && B.IsOpen(cap.bank, id) {
      CappedFinish(cfg, terms, w, 1);
      ChallengedClaimsLoseAll(cfg, terms, cap, cfg.maxRounds, id);
      FinishLedger(cfg, cap, cfg.maxRounds);
    }
  }

  lemma Uncited(c: Crypto, budgets: map<Name, nat>, w: World)
    requires Healthy(c, Terms(budgets, true), w)
    ensures Healthy(c, Terms(budgets, false), w)
  {}
}
