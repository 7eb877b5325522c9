/** Which citation resolvers keep every log acceptable to the audit, and what a bad one lets through. */
module ResolverFacts {
  import opened Order
  import opened Schemas
  import opened LedgerFacts
  import opened Rounds
  import opened RoundFacts
  import opened RunTheorems
  import opened ChainLog
  import L = Ledger
  import B = Bank
  import D = Detector
  import V = Verify

  /** How a society starts, apart from its configuration. */
  datatype Setting = Setting(header: string, resources: seq<Registration>, budgets: map<Name, nat>, cost: nat, premium: nat, threshold: nat)

  function Begin(c: Crypto, g: Setting): World {
    FreshWorld(c, g.header, g.resources, g.budgets, g.cost, g.premium, g.threshold)
  }

  // ---------------------------------------------------------------- one run

  /**
   * Whatever the resolver, a returned run's log passes the audit if and only if each recorded ruling cites a
   * source that is not blank: no other check can fail.
   */
  lemma PassesIffRulingsCite(cfg: Config, g: Setting)
    ensures var run := RunSociety(cfg, Begin(cfg.crypto, g));
            run.Returned? ==> !V.Raises(run.world.log) && (V.Passes(cfg.crypto, Chain(cfg.crypto, run.world.log)) <==> V.RulingsCite(run.world.log))
  {
    hide *;
    var w, terms := FreshWorld(cfg.crypto, g.header, g.resources, g.budgets, g.cost, g.premium, g.threshold), Terms(g.budgets, false);
    BeginIs(cfg.crypto, g);
    FreshHealthy(cfg.crypto, g.header, g.resources, g.budgets, g.cost, g.premium, g.threshold);
    Uncited(cfg.crypto, g.budgets, w);
    FineRun(cfg, terms, w, 1);
    RunIs(cfg, w);
    var run := RunSociety(cfg, w);
    FineHealthy(cfg.crypto, terms, w, run.world);
    if run.Returned? {
      ReturnedRecords(cfg, w, 1);
      HealthyPassesIff(cfg.crypto, terms, run.world);
    }
  }

  lemma BeginIs(c: Crypto, g: Setting)
    ensures Begin(c, g) == FreshWorld(c, g.header, g.resources, g.budgets, g.cost, g.premium, g.threshold)
  {}

  lemma RunIs(cfg: Config, w: World)
    ensures RunSociety(cfg, w) == RunFrom(cfg, w, 1)
  {}

  lemma HealthyPassesIff(c: Crypto, terms: Terms, w: World)
    requires Healthy(c, terms, w) && V.LastManifest(w.log) == Some(V.Recorded(L.ManifestNow(w.ledger), ManifestHash(c, L.ManifestNow(w.ledger))))
    ensures !V.Raises(w.log) && (V.Passes(c, Chain(c, w.log)) <==> V.RulingsCite(w.log))
  {
    hide Sound, V.RulingsCite, V.Raises, V.LastManifest, V.Passes, B.Kept, D.Fresh, Chain, ChainOk;
    if V.RulingsCite(w.log) { HealthyPasses(c, terms.(cited := true), w); }
    if V.Passes(c, Chain(c, w.log)) { PassedCites(c, w.log); }
  }

  lemma PassedCites(c: Crypto, log: Log)
    requires V.Passes(c, Chain(c, log))
    ensures V.RulingsCite(log)
  {
    hide ChainOk, V.RulingsCite, V.ReplayMatches, V.WithinCapacity, V.NoClash, V.AcceptedMatch, V.RejectedMismatch;
    ChainStamps(c, log);
  }

  // ---------------------------------------------------------------- a run that fails

  /** A mediator whose every ruling cites the same two sources, and does nothing else. */
  function Citing(b: string, x: string): Mediator
    requires !Blank(x)
  {
    var r := RulingFields.Ruling([b, x], [], [], []);
    assert x in r.citations;
    Mediator((dl, ps, v) => r, v => r)
  }

  /** The configuration with that mediator, and no rounds to run before its fiat. */
  function FiatOnly(cfg: Config, m: Mediator): Config {
    cfg.(mediator := Some(m), maxRounds := 0)
  }

  lemma KeepsOnly(resolver: string -> Option<Bytes>, b: string, x: string, ruling: nat)
    requires resolver(b).Some? && resolver(x).None?
    ensures Resolve(resolver, [b, x], ruling).valid == [b]
  {
    assert [b, x][1..] == [x] && [x][1..] == [];
    assert Resolve(resolver, [], ruling).valid == [];
    assert Resolve(resolver, [x], ruling).valid == [];
  }

  /** A ruling without ops, on a world without open contests, is recorded under the citations that resolve. */
  lemma BareRuling(cfg: Config, w: World, r: Ruling, round: nat, dl: Option<Deadlock>)
    requires r.ops == [] && w.bank.contests == map[] && ResolveAll(cfg, r, w.rulingSeq + 1).valid != []
    ensures var out := SignAndApply(cfg, w, r, round, dl);
            && !out.aborted && out.world.bank == w.bank && out.world.ledger == w.ledger
            && exists e :: e in out.world.log && e.event.RulingSigned? && e.event.signed.body.citations == ResolveAll(cfg, r, w.rulingSeq + 1).valid
  {
    hide ResolveAll, ResetAll, TouchedBy;
    NoContests(w.bank);
    var id := w.rulingSeq + 1;
    var res := ResolveAll(cfg, r, id);
    var signed := SignedRuling(id, round, r.(citations := res.valid), res.hashes);
    assert Stamp(round, [RulingSigned(signed)])[0] == Stamped(round, RulingSigned(signed));
    assert Stamped(round, RulingSigned(signed)) in SignAndApply(cfg, w, r, round, dl).world.log;
  }

  lemma NoContests(b: B.State)
    requires b.contests == map[]
    ensures ContestsView(b) == []
  {
    NonEmptyHasElem(B.OpenIds(b));
  }

  ghost predicate RecordsBlank(log: Log) {
    exists e :: e in log && e.event.RulingSigned? && !Cites(e.event.signed.body.citations)
  }

  /** Of a blank citation that resolves and a proper one that does not, what is kept cites nothing. */
  lemma KeepsNothingProper(cfg: Config, r: Ruling, b: string, x: string, id: nat)
    requires cfg.resolver.Some? && cfg.resolver.value(b).Some? && Blank(b) && cfg.resolver.value(x).None? && r.citations == [b, x]
    ensures ResolveAll(cfg, r, id).valid != [] && !Cites(ResolveAll(cfg, r, id).valid)
  {
    hide Blank, Cites;
    KeepsOnly(cfg.resolver.value, b, x, id);
    RecordedRulingCites(cfg, r, id);
  }

  /** After a ruling with nothing left open, fiat leaves only blocked claims to void. */
  lemma FiatEnds(cfg: Config, m: Mediator, terms: Terms, w: World)
    requires Healthy(cfg.crypto, terms, w) && !terms.cited && w.bank.contests == map[] && cfg.mediator == Some(m)
    requires var r := m.fiat(MediatorViewFor(w, 0, AllPositions(w.positions), [FiatDeadlock(w, 0)]));
             r.ops == [] && ResolveAll(cfg, r, w.rulingSeq + 1).valid != [] && !Cites(ResolveAll(cfg, r, w.rulingSeq + 1).valid)
    ensures !Finalize(cfg, w, 0).aborted && RecordsBlank(Finalize(cfg, w, 0).world.log)
  {
    hide Healthy, SignAndApply, ResolveAll, FiatDeadlock, L.IdsWith, VoidClaims, Cites, ContestsView, MediatorViewFor;
    var c, dl := cfg.crypto, FiatDeadlock(w, 0);
    var r := m.fiat(MediatorViewFor(w, 0, AllPositions(w.positions), [dl]));
    var a := Say(w, 0, [FiatCalled]);
    FineSay(c, terms, w, 0, [FiatCalled]);
    FineHealthy(c, terms, w, a);
    BareRuling(cfg, a, r, 0, Some(dl));
    FineSign(cfg, terms, a, r, 0, Some(dl));
    var one := SignAndApply(cfg, a, r, 0, Some(dl)).world;
    FineHealthy(c, terms, a, one);
    HealthyParts(c, terms, one);
    NoContests(one.bank);
    VoidAllBlocked(c, one, 0);
    FineVoidClaims(c, terms, one, L.IdsWith(one.ledger, Blocked), 0);
    var two := VoidClaims(one, L.IdsWith(one.ledger, Blocked), 0);
    assert Finalize(cfg, w, 0) == two;
    StillBlank(c, terms, one, two.world);
  }

  lemma StillBlank(c: Crypto, terms: Terms, w: World, x: World)
    requires Fine(c, terms, w, x) && RecordsBlank(w.log)
    ensures RecordsBlank(x.log)
  {
    hide Healthy, Evolves, Cites;
  }

  /**
   * A resolver that resolves a blank id `b` but not the proper id `x` lets a run through whose audit fails: a mediator
   * rules by fiat citing both, and only the blank one is kept.
   */
  lemma BlankRulingFails(cfg: Config, g: Setting, b: string, x: string)
    requires cfg.resolver.Some? && cfg.resolver.value(b).Some? && Blank(b) && cfg.resolver.value(x).None? && !Blank(x)
    ensures var run := RunSociety(FiatOnly(cfg, Citing(b, x)), Begin(cfg.crypto, g));
            run.Returned? && !V.Passes(cfg.crypto, Chain(cfg.crypto, run.world.log)) && !V.Raises(run.world.log)
  {
    hide *;
    var m := Citing(b, x);
    var only, w, terms := FiatOnly(cfg, m), Begin(cfg.crypto, g), Terms(g.budgets, false);
    BeginIs(cfg.crypto, g);
    FreshHealthy(cfg.crypto, g.header, g.resources, g.budgets, g.cost, g.premium, g.threshold);
    Uncited(cfg.crypto, g.budgets, w);
    NewBank(cfg.crypto, g);
    CitingIs(cfg, b, x, w);
    KeepsNothingProper(only, m.fiat(MediatorViewFor(w, 0, AllPositions(w.positions), [FiatDeadlock(w, 0)])), b, x, w.rulingSeq + 1);
    FiatEnds(only, m, terms, w);
    FiatRun(only, w);
    PassesIffRulingsCite(only, g);
    BlankRecorded(RunSociety(only, w).world.log);
  }

  lemma BlankRecorded(log: Log)
    ensures RecordsBlank(log) <==> !V.RulingsCite(log)
  {
    hide Cites;
  }

  lemma NewBank(c: Crypto, g: Setting)
    ensures Begin(c, g).bank.contests == map[]
  {}

  lemma CitingIs(cfg: Config, b: string, x: string, w: World)
    requires !Blank(x) && cfg.resolver.Some?
    ensures var (m, only) := (Citing(b, x), FiatOnly(cfg, Citing(b, x)));
            && only.mediator == Some(m) && only.maxRounds == 0 && only.crypto == cfg.crypto && only.resolver == cfg.resolver
            && forall v :: m.fiat(v).citations == [b, x] && m.fiat(v).ops == []
  {
    hide Blank;
  }

  lemma FiatRun(cfg: Config, w: World)
    requires cfg.maxRounds == 0 && !Finalize(cfg, w, 0).aborted
    ensures RunSociety(cfg, w).Returned?
    ensures RecordsBlank(Finalize(cfg, w, 0).world.log) ==> RecordsBlank(RunSociety(cfg, w).world.log)
  {
    hide Finalize, Cites, L.ManifestNow, Stamp;
  }

  // ---------------------------------------------------------------- every run

  ghost function RunWith(cfg: Config, m: Mediator, rounds: nat, g: Setting): Rounds.Run {
    RunSociety(cfg.(mediator := Some(m), maxRounds := rounds), Begin(cfg.crypto, g))
  }

  ghost predicate Accepted(c: Crypto, run: Rounds.Run) {
    run.Returned? ==> V.Passes(c, Chain(c, run.world.log)) && !V.Raises(run.world.log)
  }

  /**
   * Exactly which resolvers make every returned run pass, whatever the mediator and the cap: those that resolve no
   * blank id, and those that resolve every id that is not blank.
   */
  lemma AlwaysAcceptedIffSafe(cfg: Config, g: Setting)
    ensures ResolvesSafely(cfg) <==> forall m: Mediator, rounds: nat :: Accepted(cfg.crypto, RunWith(cfg, m, rounds, g))
  {
    hide RunSociety, V.Passes, V.Raises, Chain, Begin, FreshWorld, Blank, Citing;
    if ResolvesSafely(cfg) {
      forall m: Mediator, rounds: nat ensures Accepted(cfg.crypto, RunWith(cfg, m, rounds, g)) {
        BeginIs(cfg.crypto, g);
        EveryReturnedRunVerifies(cfg.(mediator := Some(m), maxRounds := rounds), g.header, g.resources, g.budgets, g.cost, g.premium, g.threshold);
      }
    } else {
      var b :| cfg.resolver.value(b).Some? && Blank(b);
      var x :| !Blank(x) && cfg.resolver.value(x).None?;
      BlankRulingFails(cfg, g, b, x);
      assert !Accepted(cfg.crypto, RunWith(cfg, Citing(b, x), 0, g));
    }
  }

  function CitingSpace(): Mediator {
    assert 'c' in "c" && !Whitespace('c');
    Citing(" ", "c")
  }

  /** For one: a resolver that knows nothing but a single space. */
  lemma SpaceIsUnsafe(cfg: Config, g: Setting, h: Bytes)
    requires cfg.resolver == Some(s => if s == " " then Some(h) else None)
    ensures var run := RunWith(cfg, CitingSpace(), 0, g);
            run.Returned? && !V.Passes(cfg.crypto, Chain(cfg.crypto, run.world.log))
  {
    hide RunSociety, V.Passes, V.Raises, Chain, Begin, Citing;
    assert Blank(" ") && 'c' in "c" && !Whitespace('c');
    assert " "[0] == ' ' && "c"[0] == 'c';
    BlankRulingFails(cfg, g, " ", "c");
  }
}
