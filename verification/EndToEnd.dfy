/** From an empty store to an audited log: the objects put together, and the auditor run on what they wrote. */
module EndToEnd {
  import opened Order
  import opened Schemas
  import opened ChainLog
  import opened LedgerFacts
  import opened LedgerObject
  import opened BankObject
  import opened DetectorObject
  import opened SocietyObject
  import opened RoundFacts
  import opened RunTheorems
  import Rounds
  import L = Ledger
  import B = Bank
  import D = Detector
  import V = Verify

  /** Registers the resources on a ledger whose log has just been opened. */
  method RegisterAll(ledger: ClaimLedger, c: Crypto, header: string, rs: seq<Registration>)
    requires ledger.Valid() && ledger.Value() == L.EMPTY && ledger.log.Lines() == [Stamped(0, Genesis(header))]
    modifies ledger, ledger.log
    ensures ledger.Valid()
    ensures var r := Play(LedgerFacts.Run(L.EMPTY, [Stamped(0, Genesis(header))]), c, RegisterCalls(rs));
            ledger.Value() == r.state && ledger.log.Lines() == r.log
  {
    hide ledger.log.Valid, ledger.log.Lines, Stamp, Play, L.Do, L.Register;
    ghost var r0 := LedgerFacts.Run(L.EMPTY, [Stamped(0, Genesis(header))]);
    PlayNothing(r0, c, rs);
    for i := 0 to |rs|
      invariant ledger.Valid() && LedgerFacts.Run(ledger.Value(), ledger.log.Lines()) == Play(r0, c, RegisterCalls(rs[..i]))
    {
      PlayOneMore(r0, c, rs, i);
      var out := ledger.Register(rs[i].id, rs[i].capacity, rs[i].group);
    }
    assert rs[..|rs|] == rs;
  }

  lemma PlayNothing(r: LedgerFacts.Run, c: Crypto, rs: seq<Registration>)
    ensures Play(r, c, RegisterCalls(rs[..0])) == r
  {}

  lemma PlayOneMore(r: LedgerFacts.Run, c: Crypto, rs: seq<Registration>, i: nat)
    requires i < |rs|
    ensures var q := Play(r, c, RegisterCalls(rs[..i]));
            var st := L.Register(q.state, rs[i].id, rs[i].capacity, rs[i].group);
            Play(r, c, RegisterCalls(rs[..i+1])) == LedgerFacts.Run(st.state, q.log + Stamp(0, st.events))
  {
    hide L.Register;
    var one := Call(L.DoRegister(rs[i].id, rs[i].capacity, rs[i].group), 0);
    assert RegisterCalls(rs[..i+1]) == RegisterCalls(rs[..i]) + [one];
    PlayConcat(r, c, RegisterCalls(rs[..i]), [one]);
    assert [one][1..] == [];
  }

  /**
   * Builds a society, runs it, and audits its log. Whatever the agents and the mediator did, if the run returned
   * then the audit does not raise and passes.
   */
  method RunAndAudit(cfg: Rounds.Config, header: string, rs: seq<Registration>, budgets: map<Name, nat>, cost: nat, premium: nat, threshold: nat)
      returns (run: Rounds.Run, raised: bool, passed: bool)
    ensures run == Rounds.RunSociety(cfg, FreshWorld(cfg.crypto, header, rs, budgets, cost, premium, threshold))
    ensures ResolvesSafely(cfg) && run.Returned? ==> !raised && passed
  {
    hide Rounds.RunSociety, V.Passes, V.Raises, ResolvesSafely, Chain, FreshWorld;
    var society := BuildSociety(cfg, header, rs, budgets, cost, premium, threshold);
    run := society.Run();
    ChainedRows(society.log);
    var report;
    raised, report := V.VerifyLog(cfg.crypto, society.log.rows, []);
    passed := report.ok;
    if ResolvesSafely(cfg) { EveryReturnedRunVerifies(cfg, header, rs, budgets, cost, premium, threshold); }
  }

  lemma ChainedRows(log: ChainLog)
    requires log.Valid()
    ensures log.rows == Chain(log.crypto, log.Lines()) && Stamps(log.rows) == log.Lines()
  {}

  method BuildSociety(cfg: Rounds.Config, header: string, rs: seq<Registration>, budgets: map<Name, nat>, cost: nat, premium: nat, threshold: nat)
      returns (society: Society)
    ensures society.Valid() && society.cfg == cfg && society.log.crypto == cfg.crypto
    ensures fresh(society) && fresh(society.ledger) && fresh(society.bank) && fresh(society.detector) && fresh(society.log)
    ensures society.Now() == FreshWorld(cfg.crypto, header, rs, budgets, cost, premium, threshold)
  {
    hide Play, RegisterCalls, Chain;
    var log := OpenLog(cfg.crypto, header);
    var ledger := new ClaimLedger(cfg.crypto, log, L.EMPTY);
    RegisterAll(ledger, cfg.crypto, header, rs);
    var bank := new CredibilityBank(log, budgets, cost, premium, map[], map[]);
    B.NothingStored(budgets, cost, premium);
    var detector := new DeadlockDetector(threshold);
    society := new Society(cfg, ledger, bank, detector);
  }

  method OpenLog(c: Crypto, header: string) returns (log: ChainLog)
    ensures fresh(log) && log.crypto == c && log.Valid() && log.Lines() == [Stamped(0, Genesis(header))]
  {
    log := new ChainLog(c, []);
    var ok := log.Begin(header);
  }
}
