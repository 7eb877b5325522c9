/** When the mediator is asked, on what, and what its answer does. */
module MediationFacts {
  import opened Order
  import opened Schemas
  import opened Rounds
  import opened RoundFacts
  import opened FiatFacts
  import opened SettlementFacts
  import L = Ledger
  import B = Bank
  import D = Detector

  // ---------------------------------------------------------------- what a ruling does

  /** The citations a resolver in use knows, in order. */
  function Known(cfg: Config, cs: seq<string>): seq<string>
    decreases |cs|
  {
    if cs == [] then []
    else (if cfg.resolver.Some? && cfg.resolver.value(cs[0]).None? then [] else [cs[0]]) + Known(cfg, cs[1..])
  }

  /** The lines the log has gained. */
  function News(w: World, x: World): Log {
    if |w.log| <= |x.log| then x.log[|w.log|..] else []
  }

  /** Every op was tried in turn, and the log tells how each went. */
  ghost predicate OpsTried(s: L.State, ops: seq<RulingOp>, ruling: nat, round: nat, lines: Log) {
    forall i :: 0 <= i < |ops| ==>
      Stamped(round, if L.RuleOp(Applied(s, ops[..i], ruling, round), ops[i], ruling, round).out == L.Ok
                     then RulingOpEvent(ruling, ops[i]) else OpRejected(ruling, ops[i])) in lines
  }

  /** Nothing a ruling is not meant for is different. */
  ghost predicate NumberedNext(w: World, x: World) {
    && x.rulingSeq == w.rulingSeq + 1 && w.log <= x.log
    && x.positions == w.positions && x.deadlocks == w.deadlocks && x.rejections == w.rejections
  }

  /** A ruling none of whose citations is known: numbered, logged as rejected, and without any effect. */
  ghost predicate Rejected(w: World, x: World, r: RulingFields, round: nat) {
    && NumberedNext(w, x) && x.ledger == w.ledger && x.bank == w.bank && x.detector == w.detector && x.rulings == w.rulings
    && Stamped(round, RulingRejected(w.rulingSeq + 1, r.citations)) in News(w, x)
  }

  /** The ruling is one more on record, with the known citations only, and logged as signed. */
  ghost predicate Recorded(cfg: Config, w: World, x: World, r: RulingFields, round: nat) {
    && |x.rulings| == |w.rulings| + 1 && w.rulings == x.rulings[..|w.rulings|]
    && x.rulings[|w.rulings|].id == w.rulingSeq + 1 && x.rulings[|w.rulings|].round == round
    && x.rulings[|w.rulings|].body == r.(citations := Known(cfg, r.citations))
    && Stamped(round, RulingSigned(x.rulings[|w.rulings|])) in News(w, x)
  }

  /**
   * Any other ruling: recorded with the known citations, its ops tried one by one, the open contests settled, and the
   * streaks of the deadlock's resources forgotten.
   */
  ghost predicate Enacted(cfg: Config, w: World, x: World, r: RulingFields, round: nat, dl: Option<Deadlock>) {
    var id := w.rulingSeq + 1;
    && NumberedNext(w, x) && Recorded(cfg, w, x, r, round)
    && x.ledger == Applied(w.ledger, r.ops, id, round) && OpsTried(w.ledger, r.ops, id, round, News(w, x))
    && EndedAll(w.bank, x.bank, r, dl) && PaidOut(w.bank, x.bank, r, dl)
    && x.detector == w.detector.(streaks := w.detector.streaks - if dl.Some? then Elems(dl.value.resources) else {})
  }

  ghost predicate Answered(cfg: Config, w: World, x: World, r: RulingFields, round: nat, dl: Option<Deadlock>) {
    if Known(cfg, r.citations) == [] then Rejected(w, x, r, round) else Enacted(cfg, w, x, r, round, dl)
  }

  lemma {:induction false} ResolvesKnown(cfg: Config, cs: seq<string>, ruling: nat)
    requires cfg.resolver.Some?
    ensures Resolve(cfg.resolver.value, cs, ruling).valid == Known(cfg, cs)
    decreases |cs|
  {
    if cs != [] { ResolvesKnown(cfg, cs[1..], ruling); }
  }

  lemma {:induction false} AllKnown(cfg: Config, cs: seq<string>)
    requires cfg.resolver.None?
    ensures Known(cfg, cs) == cs
    decreases |cs|
  {
    if cs != [] { AllKnown(cfg, cs[1..]); }
  }

  lemma KeepsKnown(cfg: Config, r: RulingFields, ruling: nat)
    ensures ResolveAll(cfg, r, ruling).valid == Known(cfg, r.citations)
  {
    if cfg.resolver.Some? { ResolvesKnown(cfg, r.citations, ruling); } else { AllKnown(cfg, r.citations); }
  }

  lemma {:induction false} ForgetsAll(d: D.State, rs: seq<Name>)
    ensures ResetAll(d, rs) == d.(streaks := d.streaks - Elems(rs))
    decreases |rs|
  {
    if rs == [] {
      assert d.streaks - {} == d.streaks;
    } else {
      ForgetsAll(D.ResetResource(d, rs[0]), rs[1..]);
      assert rs == [rs[0]] + rs[1..];
      assert (d.streaks - {rs[0]}) - Elems(rs[1..]) == d.streaks - Elems(rs);
    }
  }

  lemma LastLine(w: World, round: nat, events: seq<Event>, e: Event)
    requires events != [] && events[|events|-1] == e
    ensures Stamped(round, e) in Stamp(round, events)
  {
    assert Stamp(round, events)[|events|-1] == Stamped(round, e);
  }

  lemma OpEnds(s: L.State, op: RulingOp, ruling: nat, round: nat)
    ensures var st := L.RuleOp(s, op, ruling, round); st.out == L.Ok ==> st.events != [] && st.events[|st.events|-1] == RulingOpEvent(ruling, op)
  {
    hide L.TakeBack, L.RuleGrant, L.VoidClaim;
  }

  /** One op: what the loop does with it. */
  lemma OneOpTried(w: World, op: RulingOp, ruling: nat, round: nat) returns (x: World)
    requires L.RuleOp(w.ledger, op, ruling, round).out != L.IntegrityViolation
    ensures x.ledger == L.RuleOp(w.ledger, op, ruling, round).state && w.log <= x.log
    ensures forall rest :: ApplyOps(w, [op] + rest, ruling, round) == ApplyOps(x, rest, ruling, round)
    ensures Stamped(round, if L.RuleOp(w.ledger, op, ruling, round).out == L.Ok then RulingOpEvent(ruling, op) else OpRejected(ruling, op)) in News(w, x)
  {
    hide L.RuleOp;
    var st := L.RuleOp(w.ledger, op, ruling, round);
    var w1 := OnLedger(w, st, round);
    x := if st.out == L.Ok then w1 else Say(w1, round, [OpRejected(ruling, op)]);
    OpEnds(w.ledger, op, ruling, round);
    if st.out == L.Ok { LastLine(w, round, st.events, RulingOpEvent(ruling, op)); } else { LastLine(w, round, [OpRejected(ruling, op)], OpRejected(ruling, op)); }
    hide Stamp;
    forall rest ensures ApplyOps(w, [op] + rest, ruling, round) == ApplyOps(x, rest, ruling, round) {
      assert ([op] + rest)[0] == op && ([op] + rest)[1..] == rest;
    }
    assert News(w, x) == Stamp(round, st.events) + if st.out == L.Ok then [] else Stamp(round, [OpRejected(ruling, op)]);
  }

  lemma {:induction false} AllOpsTried(w: World, ops: seq<RulingOp>, ruling: nat, round: nat)
    requires !ApplyOps(w, ops, ruling, round).aborted
    ensures var x := ApplyOps(w, ops, ruling, round).world;
            w.log <= x.log && x.ledger == Applied(w.ledger, ops, ruling, round) && OpsTried(w.ledger, ops, ruling, round, News(w, x))
    decreases |ops|
  {
    hide L.RuleOp, News;
    LoopApplies(w, ops, ruling, round);
    if ops != [] {
      var op, rest := ops[0], ops[1..];
      assert ops == [op] + rest;
      var x := OneOpTried(w, op, ruling, round);
      hide ApplyOps;
      AllOpsTried(x, rest, ruling, round);
      TriedFirst(w, x, ApplyOps(x, rest, ruling, round).world, ops, ruling, round);
    }
  }

  lemma TriedFirst(w: World, x: World, y: World, ops: seq<RulingOp>, ruling: nat, round: nat)
    requires ops != [] && w.log <= x.log <= y.log && x.ledger == L.RuleOp(w.ledger, ops[0], ruling, round).state
    requires Stamped(round, if L.RuleOp(w.ledger, ops[0], ruling, round).out == L.Ok then RulingOpEvent(ruling, ops[0]) else OpRejected(ruling, ops[0])) in News(w, x)
    requires OpsTried(x.ledger, ops[1..], ruling, round, News(x, y))
    ensures w.log <= y.log && OpsTried(w.ledger, ops, ruling, round, News(w, y))
  {
    hide L.RuleOp;
    var rest := ops[1..];
    assert News(w, y) == News(w, x) + News(x, y);
    hide News;
    forall i | 0 <= i < |ops|
      ensures Stamped(round, if L.RuleOp(Applied(w.ledger, ops[..i], ruling, round), ops[i], ruling, round).out == L.Ok
                             then RulingOpEvent(ruling, ops[i]) else OpRejected(ruling, ops[i])) in News(w, y)
    {
      if i > 0 {
        assert ops[..i] == [ops[0]] + rest[..i-1] && ops[i] == rest[i-1];
        AppliedThen(w.ledger, [ops[0]], rest[..i-1], ruling, round);
        AppliedMore(w.ledger, [ops[0]], 0, ruling, round);
        assert [ops[0]][..1] == [ops[0]] && [ops[0]][..0] == [];
      } else {
        assert ops[..0] == [];
      }
    }
  }

  // ---------------------------------------------------------------- a ruling, start to end

  lemma NewsAdd(w: World, x: World, y: World, e: Stamped)
    requires w.log <= x.log <= y.log && (e in News(w, x) || e in News(x, y))
    ensures w.log <= y.log && e in News(w, y)
  {
    assert News(w, y) == News(w, x) + News(x, y);
  }

  lemma TriedAdd(w: World, x: World, y: World, z: World, ops: seq<RulingOp>, ruling: nat, round: nat)
    requires w.log <= x.log <= y.log <= z.log && OpsTried(x.ledger, ops, ruling, round, News(x, y))
    ensures w.log <= z.log && OpsTried(x.ledger, ops, ruling, round, News(w, z))
  {
    hide L.RuleOp, Applied;
    assert News(w, z) == News(w, x) + (News(x, y) + News(y, z));
    hide News;
  }

  /** Before its ops are tried a ruling has been numbered, recorded and logged. */
  ghost predicate Entered(cfg: Config, w: World, x: World, r: RulingFields, round: nat) {
    && NumberedNext(w, x) && Recorded(cfg, w, x, r, round)
    && x.ledger == w.ledger && x.bank == w.bank && x.detector == w.detector
  }

  lemma EntersRuling(cfg: Config, w: World, r: RulingFields, round: nat)
    requires Known(cfg, r.citations) != []
    ensures var id := w.rulingSeq + 1;
            var res := ResolveAll(cfg, r, id);
            var signed := SignedRuling(id, round, r.(citations := res.valid), res.hashes);
            Entered(cfg, w, Say(Say(w.(rulingSeq := id), round, res.dropped), round, [RulingSigned(signed)]).(rulings := w.rulings + [signed]), r, round)
  {
    hide ResolveAll, Known;
    var id := w.rulingSeq + 1;
    KeepsKnown(cfg, r, id);
    var res := ResolveAll(cfg, r, id);
    var signed := SignedRuling(id, round, r.(citations := res.valid), res.hashes);
    LastLine(w, round, [RulingSigned(signed)], RulingSigned(signed));
    var x := Say(Say(w.(rulingSeq := id), round, res.dropped), round, [RulingSigned(signed)]).(rulings := w.rulings + [signed]);
    SaidTwice(w, x, Stamp(round, res.dropped), Stamp(round, [RulingSigned(signed)]), Stamped(round, RulingSigned(signed)));
    hide Stamp, News;
  }

  lemma SaidTwice(w: World, x: World, a: Log, b: Log, e: Stamped)
    requires x.log == w.log + a + b && e in b
    ensures w.log <= x.log && e in News(w, x)
  {
    assert News(w, x) == a + b;
  }

  lemma RejectsRuling(cfg: Config, w: World, r: Ruling, round: nat, dl: Option<Deadlock>)
    requires Known(cfg, r.citations) == []
    ensures var out := SignAndApply(cfg, w, r, round, dl); !out.aborted && Rejected(w, out.world, r, round)
  {
    hide ResolveAll, Known, ApplyOps, SettleAll;
    var id := w.rulingSeq + 1;
    KeepsKnown(cfg, r, id);
    LastLine(w, round, [RulingRejected(id, r.citations)], RulingRejected(id, r.citations));
    SaidTwice(w, SignAndApply(cfg, w, r, round, dl).world, Stamp(round, ResolveAll(cfg, r, id).dropped), Stamp(round, [RulingRejected(id, r.citations)]),
              Stamped(round, RulingRejected(id, r.citations)));
    hide Stamp, News;
  }

  /** The three steps of a ruling that is recorded. */
  lemma EnactedSteps(cfg: Config, w: World, r: RulingFields, round: nat, dl: Option<Deadlock>, e: World, o: World, s: World, x: World)
    requires Entered(cfg, w, e, r, round)
    requires e.log <= o.log && o == e.(ledger := o.ledger, log := o.log) && o.ledger == Applied(e.ledger, r.ops, w.rulingSeq + 1, round)
    requires OpsTried(e.ledger, r.ops, w.rulingSeq + 1, round, News(e, o))
    requires o.log <= s.log && s == o.(bank := s.bank, log := s.log) && EndedAll(o.bank, s.bank, r, dl) && PaidOut(o.bank, s.bank, r, dl)
    requires x == s.(detector := s.detector.(streaks := s.detector.streaks - if dl.Some? then Elems(dl.value.resources) else {}))
    ensures Enacted(cfg, w, x, r, round, dl)
  {
    hide OpsTried, Applied, EndedAll, PaidOut, Known, News;
    TriedAdd(w, e, o, s, r.ops, w.rulingSeq + 1, round);
    NewsAdd(w, e, o, Stamped(round, RulingSigned(x.rulings[|w.rulings|])));
    NewsAdd(w, o, s, Stamped(round, RulingSigned(x.rulings[|w.rulings|])));
    SameNews(w, s, x);
  }

  lemma SameNews(w: World, x: World, y: World)
    requires x.log == y.log
    ensures News(w, x) == News(w, y)
  {}

  /**
   * What a ruling does, on a healthy world: it takes the next number; if no citation is known it is only logged as
   * rejected; otherwise it is recorded, its ops are tried in turn, every open contest is settled by it, and the
   * streaks of the deadlock's resources start over.
   */
  lemma RulingDoes(cfg: Config, terms: Terms, w: World, r: Ruling, round: nat, dl: Option<Deadlock>)
    requires Healthy(cfg.crypto, terms, w) && (terms.cited ==> ResolvesSafely(cfg)) && !SignAndApply(cfg, w, r, round, dl).aborted
    ensures Answered(cfg, w, SignAndApply(cfg, w, r, round, dl).world, r, round, dl)
  {
    if Known(cfg, r.citations) == [] {
      hide *;
      RejectsRuling(cfg, w, r, round, dl);
      AnswerIs(cfg, w, SignAndApply(cfg, w, r, round, dl).world, r, round, dl);
    } else {
      EnactsRuling(cfg, terms, w, r, round, dl);
    }
  }

  lemma AnswerIs(cfg: Config, w: World, x: World, r: RulingFields, round: nat, dl: Option<Deadlock>)
    ensures Answered(cfg, w, x, r, round, dl) <==> if Known(cfg, r.citations) == [] then Rejected(w, x, r, round) else Enacted(cfg, w, x, r, round, dl)
  {
    hide Known, Rejected, Enacted;
  }

  lemma SignedHealthy(cfg: Config, terms: Terms, w: World, r: Ruling, round: nat)
    requires Healthy(cfg.crypto, terms, w) && (terms.cited ==> ResolvesSafely(cfg)) && Known(cfg, r.citations) != []
    ensures var id := w.rulingSeq + 1;
            var res := ResolveAll(cfg, r, id);
            var signed := SignedRuling(id, round, r.(citations := res.valid), res.hashes);
            Healthy(cfg.crypto, terms, Say(Say(w.(rulingSeq := id), round, res.dropped), round, [RulingSigned(signed)]).(rulings := w.rulings + [signed]))
  {
    hide Fine, Healthy, ResolveAll, Say, Known, ResolvesSafely;
    var c, id := cfg.crypto, w.rulingSeq + 1;
    KeepsKnown(cfg, r, id);
    var res := ResolveAll(cfg, r, id);
    FineSame(c, terms, w, w.(rulingSeq := id));
    FineHealthy(c, terms, w, w.(rulingSeq := id));
    FineDropped(cfg, terms, w.(rulingSeq := id), r, id, round);
    var d := Say(w.(rulingSeq := id), round, res.dropped);
    FineHealthy(c, terms, w.(rulingSeq := id), d);
    if terms.cited { ResolvedCites(cfg, r, id); }
    var signed := SignedRuling(id, round, r.(citations := res.valid), res.hashes);
    FineRecord(c, terms, w.(rulingSeq := id), d, w.rulings + [signed], signed, round);
    FineHealthy(c, terms, w.(rulingSeq := id), Say(d, round, [RulingSigned(signed)]).(rulings := w.rulings + [signed]));
  }

  lemma EnactsRuling(cfg: Config, terms: Terms, w: World, r: Ruling, round: nat, dl: Option<Deadlock>)
    requires Healthy(cfg.crypto, terms, w) && (terms.cited ==> ResolvesSafely(cfg)) && !SignAndApply(cfg, w, r, round, dl).aborted
    requires Known(cfg, r.citations) != []
    ensures Answered(cfg, w, SignAndApply(cfg, w, r, round, dl).world, r, round, dl)
  {
    hide Healthy, ResolveAll, ApplyOps, SettleAll, ResetAll, ContestsView, Say, Known, Applied, OpsTried, News, EndedAll, PaidOut, TouchedBy;
    hide Enacted, Entered, Rejected, ResolvesSafely, ToldAmong, Fine;
    var c, id := cfg.crypto, w.rulingSeq + 1;
    KeepsKnown(cfg, r, id);
    var res := ResolveAll(cfg, r, id);
    var signed := SignedRuling(id, round, r.(citations := res.valid), res.hashes);
    var e := Say(Say(w.(rulingSeq := id), round, res.dropped), round, [RulingSigned(signed)]).(rulings := w.rulings + [signed]);
    EntersRuling(cfg, w, r, round);
    SignedHealthy(cfg, terms, w, r, round);
    var o := ApplyOps(e, r.ops, id, round);
    AllOpsTried(e, r.ops, id, round);
    OpsKeepBank(e, r.ops, id, round);
    FineOps(c, terms, e, r.ops, id, round);
    FineHealthy(c, terms, e, o.world);
    SettlesAll(c, terms, o.world, r, dl, round);
    var s := SettleAll(o.world, ContestsView(o.world.bank), r, TouchedBy(r, dl), round);
    ForgetsAll(s.world.detector, if dl.Some? then dl.value.resources else []);
    var x := SignAndApply(cfg, w, r, round, dl).world;
    EnactedSteps(cfg, w, r, round, dl, e, o.world, s.world, x);
  }

  lemma AnswerNumbers(cfg: Config, w: World, x: World, r: RulingFields, round: nat, dl: Option<Deadlock>)
    requires Answered(cfg, w, x, r, round, dl)
    ensures NumberedNext(w, x)
  {
    hide Known, OpsTried, EndedAll, PaidOut, Recorded, NumberedNext;
  }
}
