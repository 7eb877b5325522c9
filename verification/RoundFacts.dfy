/** What every phase of a run keeps, for every agent, every mediator and every outcome. */
module RoundFacts {
  import opened Order
  import opened Schemas
  import opened Books
  import opened LedgerFacts
  import opened Rounds
  import L = Ledger
  import B = Bank
  import D = Detector
  import V = Verify

  /** The opening budgets, and whether every recorded ruling is to be shown to cite a source. */
  datatype Terms = Terms(budgets: map<Name, nat>, cited: bool)

  /** The ledger is sound, the log tells its whole story, the bank's accounts balance, no report repeats a key. */
  ghost predicate Healthy(c: Crypto, terms: Terms, w: World) {
    && Sound(w.ledger) && Tells(c, w.log, w.ledger) && !V.Raises(w.log)
    && w.log != [] && w.log[0].event.Genesis? && (terms.cited ==> V.RulingsCite(w.log))
    && B.Kept(w.bank, terms.budgets)
    && D.Fresh({}, w.deadlocks, w.detector.fired)
  }

  /** One world is a later moment of the same run. */
  ghost predicate Onward(w: World, x: World) {
    && Evolves(w.ledger, x.ledger) && w.log <= x.log && w.deadlocks <= x.deadlocks
    && x.bank.cost == w.bank.cost && x.bank.premium == w.bank.premium
  }

  lemma OnwardTrans(w: World, x: World, y: World)
    requires Onward(w, x) && Onward(x, y)
    ensures Onward(w, y)
  {
    EvolvesTrans(w.ledger, x.ledger, y.ledger);
  }

  lemma EvolvesRefl(s: L.State)
    ensures Evolves(s, s)
  {}

  // ---------------------------------------------------------------- single steps

  /** Lines the auditor has nothing to say against: no malformed nonce, and no ruling without a source. */
  predicate Allowed(terms: Terms, e: Event) {
    !V.BadNonce(e) && (terms.cited && e.RulingSigned? ==> Cites(e.signed.body.citations))
  }

  /** Allowed lines that carry no allocation, resource, commitment or reveal. */
  predicate Plain(terms: Terms, e: Event) {
    Allowed(terms, e) && Silent(e) && !e.RevealOk? && !e.RevealReject?
  }

  lemma PlainGood(s: L.State, c: Crypto, terms: Terms, events: seq<Event>, round: nat)
    requires Sound(s) && forall e :: e in events ==> Plain(terms, e)
    ensures Good(s, c, L.Step(s, events, L.Ok), round)
  {
    EvolvesRefl(s);
    forall e | e in Stamp(round, events) ensures Silent(e.event) { assert e.event in events; }
    ReadSilent(AccountsOf(s), Stamp(round, events));
  }

  lemma NotRaising(terms: Terms, log: Log, round: nat, events: seq<Event>)
    requires !V.Raises(log) && (terms.cited ==> V.RulingsCite(log)) && forall e :: e in events ==> Allowed(terms, e)
    ensures !V.Raises(log + Stamp(round, events)) && (terms.cited ==> V.RulingsCite(log + Stamp(round, events)))
  {
    forall e | e in log + Stamp(round, events) ensures e in log || Allowed(terms, e.event) {
      if e in Stamp(round, events) { assert e.event in events; }
    }
  }

  lemma OnLedgerHealthy(c: Crypto, terms: Terms, w: World, st: L.Step, round: nat)
    requires Healthy(c, terms, w) && Good(w.ledger, c, st, round) && forall e :: e in st.events ==> Allowed(terms, e)
    ensures Healthy(c, terms, OnLedger(w, st, round)) && Onward(w, OnLedger(w, st, round))
  {
    TellsStep(w.ledger, c, w.log, st, round);
    NotRaising(terms, w.log, round, st.events);
  }

  lemma SayHealthy(c: Crypto, terms: Terms, w: World, round: nat, events: seq<Event>)
    requires Healthy(c, terms, w) && forall e :: e in events ==> Plain(terms, e)
    ensures Healthy(c, terms, Say(w, round, events)) && Onward(w, Say(w, round, events))
  {
    PlainGood(w.ledger, c, terms, events, round);
    OnLedgerHealthy(c, terms, w, L.Step(w.ledger, events, L.Ok), round);
  }

  lemma OnBankHealthy(c: Crypto, terms: Terms, w: World, st: B.Step, round: nat)
    requires Healthy(c, terms, w) && B.Kept(st.state, terms.budgets) && forall e :: e in st.events ==> Plain(terms, e)
    requires st.state.cost == w.bank.cost && st.state.premium == w.bank.premium
    ensures Healthy(c, terms, OnBank(w, st, round)) && Onward(w, OnBank(w, st, round))
  {
    SayHealthy(c, terms, w, round, st.events);
  }

  /** Fields the invariants do not mention may change freely. */
  lemma SameParts(c: Crypto, terms: Terms, w: World, x: World)
    requires Healthy(c, terms, w) && x.ledger == w.ledger && x.log == w.log && x.bank == w.bank
    requires x.deadlocks == w.deadlocks && x.detector.fired == w.detector.fired
    ensures Healthy(c, terms, x) && Onward(w, x)
  {
    EvolvesRefl(w.ledger);
  }

  lemma BankPlain(terms: Terms, b: B.State, op: B.Op, round: nat)
    ensures forall e :: e in B.Do(b, op, round).events ==> Plain(terms, e)
  {
    match op
    case DoOpen(pos) =>
    case DoSettle(id, won) =>
    case DoVoid(id) =>
  }

  lemma BankDo(c: Crypto, terms: Terms, w: World, op: B.Op, round: nat)
    requires Healthy(c, terms, w)
    ensures Healthy(c, terms, OnBank(w, B.Do(w.bank, op, round), round))
    ensures Onward(w, OnBank(w, B.Do(w.bank, op, round), round))
  {
    hide Healthy, Onward, B.Do, B.Kept, Plain;
    HealthyParts(c, terms, w);
    B.DoKept(w.bank, terms.budgets, op, round);
    B.DoPrices(w.bank, op, round);
    BankPlain(terms, w.bank, op, round);
    OnBankHealthy(c, terms, w, B.Do(w.bank, op, round), round);
  }

  lemma HealthyParts(c: Crypto, terms: Terms, w: World)
    requires Healthy(c, terms, w)
    ensures B.Kept(w.bank, terms.budgets) && Sound(w.ledger)
  {}

  /** Ledger calls record no ruling, and no nonce but those a reveal is given. */
  ghost predicate Unsigned(events: seq<Event>) {
    forall e :: e in events ==> !V.BadNonce(e) && !e.RulingSigned?
  }

  lemma QuietTakeBack(s: L.State, id: nat, targets: seq<Name>, emptied: Status, round: nat)
    requires id in s.claims
    ensures Unsigned(L.TakeBack(s, id, targets, emptied, round).events)
  {
    hide L.Deallocate;
  }

  lemma QuietGrant(s: L.State, id: nat, bens: Option<seq<Name>>, round: nat)
    requires id in s.claims
    ensures Unsigned(L.RuleGrant(s, id, bens, round).events)
  {
    hide L.TryAllocate;
  }

  lemma QuietVoid(s: L.State, id: nat, round: nat)
    ensures Unsigned(L.VoidClaim(s, id, round).events)
  {
    hide L.Deallocate, L.Holders, L.HolderList;
  }

  lemma QuietRelease(s: L.State, agent: Name, id: nat, bens: Option<seq<Name>>, round: nat)
    ensures Unsigned(L.Release(s, agent, id, bens, round).events)
  {
    if id in s.claims { QuietTakeBack(s, id, L.Targets(s, id, bens), Released, round); }
    hide L.TakeBack, L.Targets;
  }

  lemma QuietRule(s: L.State, op: RulingOp, ruling: nat, round: nat)
    ensures Unsigned(L.RuleOp(s, op, ruling, round).events)
  {
    hide L.TakeBack, L.RuleGrant, L.VoidClaim, L.Targets;
    if op.claim in s.claims {
      QuietTakeBack(s, op.claim, L.Targets(s, op.claim, op.beneficiaries), Revoked, round);
      QuietGrant(s, op.claim, op.beneficiaries, round);
      QuietVoid(s, op.claim, round);
    }
  }

  /** The only nonces a reveal logs are those it was given. */
  lemma QuietReveal(s: L.State, c: Crypto, cid: nat, p: Proposal, nonce: Bytes, round: nat)
    requires |nonce| == NONCE_BYTES
    ensures Unsigned(L.Reveal(s, c, cid, p, nonce, round).events)
  {
    hide L.TryAllocate, VerifyCommitment;
  }

  // ---------------------------------------------------------------- sealed bids

  /** All that a view is built from. */
  ghost predicate SameSight(w: World, x: World) {
    && x.ledger.resources == w.ledger.resources && x.ledger.allocs == w.ledger.allocs && x.ledger.claims == w.ledger.claims
    && x.bank == w.bank && x.rulings == w.rulings
  }

  lemma SameSightSameView(w: World, x: World, name: Name, round: nat)
    requires SameSight(w, x)
    ensures ViewFor(x, name, round) == ViewFor(w, name, round)
  {
    assert forall st :: L.IdsWith(x.ledger, st) == L.IdsWith(w.ledger, st);
    assert ResourcesView(x.ledger) == ResourcesView(w.ledger);
  }

  /** A bid the ledger will accept: sealed, unopened, its own, and matching. */
  ghost predicate Ready(c: Crypto, s: L.State, b: Bid) {
    && L.Revealable(s, b.commitment, b.proposal)
    && VerifyCommitment(c, b.proposal, b.nonce, s.commits[b.commitment].digest)
  }

  /** All bids are ready, and no two open the same commitment. */
  ghost predicate AllReady(c: Crypto, s: L.State, bids: seq<Bid>) {
    && (forall b :: b in bids ==> Ready(c, s, b))
    && forall i, j :: 0 <= i < j < |bids| ==> bids[i].commitment != bids[j].commitment
  }

  lemma SealReady(cfg: Config, w: World, p: Proposal, round: nat)
    requires Sound(w.ledger)
    ensures var x := Seal(cfg, w, p, round);
            && SameSight(w, x)
            && Ready(cfg.crypto, x.ledger, NextBid(cfg, w, p)) && NextBid(cfg, w, p).commitment !in w.ledger.commits
            && (forall b :: Ready(cfg.crypto, w.ledger, b) ==> Ready(cfg.crypto, x.ledger, b))
            && (forall m :: m in x.ledger.commits ==> m in w.ledger.commits || m == NextBid(cfg, w, p).commitment)
  {
    assert NextBid(cfg, w, p).commitment !in w.ledger.commits;
    hide Sound, Stamp;
  }

  lemma SealHealthy(cfg: Config, terms: Terms, w: World, p: Proposal, round: nat)
    requires Healthy(cfg.crypto, terms, w)
    ensures var x := Seal(cfg, w, p, round);
            && Healthy(cfg.crypto, terms, x) && Onward(w, x) && SameSight(w, x)
            && Ready(cfg.crypto, x.ledger, NextBid(cfg, w, p)) && NextBid(cfg, w, p).commitment !in w.ledger.commits
            && (forall b :: Ready(cfg.crypto, w.ledger, b) ==> Ready(cfg.crypto, x.ledger, b))
            && (forall m :: m in x.ledger.commits ==> m in w.ledger.commits || m == NextBid(cfg, w, p).commitment)
  {
    hide Healthy, Sound, Onward, SameSight, Ready;
    HealthyParts(cfg.crypto, terms, w);
    var digest := CommitmentDigest(cfg.crypto, p, NextBid(cfg, w, p).nonce).value;
    CommitGood(w.ledger, cfg.crypto, p.agent, digest, round);
    OnLedgerHealthy(cfg.crypto, terms, w, L.CommitBid(w.ledger, p.agent, digest, round), round);
    SealReady(cfg, w, p, round);
  }

  /** New bids, on top of a world: healthy, invisible to every view, and all acceptable. */
  ghost predicate Sealing(cfg: Config, terms: Terms, w: World, out: Out<seq<Bid>>) {
    && Healthy(cfg.crypto, terms, out.world) && Onward(w, out.world) && SameSight(w, out.world)
    && AllReady(cfg.crypto, out.world.ledger, out.value)
    && (forall b :: b in out.value ==> b.commitment !in w.ledger.commits)
    && (forall b :: Ready(cfg.crypto, w.ledger, b) ==> Ready(cfg.crypto, out.world.ledger, b))
    && out.world.rejections == w.rejections && out.world.positions == w.positions && out.world.detector == w.detector
  }

  lemma SealingNone(cfg: Config, terms: Terms, w: World, aborted: bool)
    requires Healthy(cfg.crypto, terms, w)
    ensures Sealing(cfg, terms, w, Out(w, [], aborted))
  {
    EvolvesRefl(w.ledger);
  }

  lemma SealingThen(cfg: Config, terms: Terms, w: World, one: Out<seq<Bid>>, rest: Out<seq<Bid>>)
    requires Sealing(cfg, terms, w, one) && Sealing(cfg, terms, one.world, rest)
    ensures Sealing(cfg, terms, w, Out(rest.world, one.value + rest.value, rest.aborted))
  {
    OnwardTrans(w, one.world, rest.world);
    hide Onward, Healthy;
    var bids := one.value + rest.value;
    forall i, j | 0 <= i < j < |bids| ensures bids[i].commitment != bids[j].commitment {
      if i < |one.value| <= j {
        assert bids[i] in one.value && Ready(cfg.crypto, one.world.ledger, bids[i]);
        assert bids[j] in rest.value;
      }
    }
  }

  lemma SealingOne(cfg: Config, terms: Terms, w: World, p: Proposal, round: nat)
    requires Healthy(cfg.crypto, terms, w)
    ensures Sealing(cfg, terms, w, Out(Seal(cfg, w, p, round), [NextBid(cfg, w, p)], false))
  {
    SealHealthy(cfg, terms, w, p, round);
  }

  lemma {:induction false} SealAllFacts(cfg: Config, terms: Terms, w: World, name: Name, ps: seq<Proposal>, round: nat)
    requires Healthy(cfg.crypto, terms, w)
    ensures Sealing(cfg, terms, w, SealAll(cfg, w, name, ps, round))
    decreases |ps|
  {
    hide Sealing, Healthy, Seal;
    if ps == [] || ps[0].agent != name {
      SealingNone(cfg, terms, w, ps != []);
    } else {
      var x := Seal(cfg, w, ps[0], round);
      SealingOne(cfg, terms, w, ps[0], round);
      assert Healthy(cfg.crypto, terms, x) by { SealHealthy(cfg, terms, w, ps[0], round); }
      SealAllFacts(cfg, terms, x, name, ps[1..], round);
      SealingThen(cfg, terms, w, Out(x, [NextBid(cfg, w, ps[0])], false), SealAll(cfg, x, name, ps[1..], round));
    }
  }

  lemma {:induction false} CommitPhaseFacts(cfg: Config, terms: Terms, w: World, order: seq<Agent>, round: nat)
    requires Healthy(cfg.crypto, terms, w)
    ensures Sealing(cfg, terms, w, CommitPhase(cfg, w, order, round))
    decreases |order|
  {
    hide Sealing, Healthy, SealAll;
    if order == [] {
      SealingNone(cfg, terms, w, false);
    } else {
      var ps := order[0].propose(ViewFor(w, order[0].name, round));
      SealAllFacts(cfg, terms, w, order[0].name, ps, round);
      var one := SealAll(cfg, w, order[0].name, ps, round);
      assert Healthy(cfg.crypto, terms, one.world) by { SealingParts(cfg, terms, w, one); }
      if !one.aborted {
        CommitPhaseFacts(cfg, terms, one.world, order[1..], round);
        SealingThen(cfg, terms, w, one, CommitPhase(cfg, one.world, order[1..], round));
      }
    }
  }

  lemma SealingParts(cfg: Config, terms: Terms, w: World, out: Out<seq<Bid>>)
    requires Sealing(cfg, terms, w, out)
    ensures Healthy(cfg.crypto, terms, out.world) && Onward(w, out.world) && SameSight(w, out.world)
    ensures AllReady(cfg.crypto, out.world.ledger, out.value) && out.world.rejections == w.rejections
  {}

  /** What every agent proposes when each sees the world as it stood before anyone committed. */
  function ProposalsAt(w: World, order: seq<Agent>, round: nat): seq<Proposal>
    decreases |order|
  {
    if order == [] then []
    else order[0].propose(ViewFor(w, order[0].name, round)) + ProposalsAt(w, order[1..], round)
  }

  function ProposalsOf(bids: seq<Bid>): (ps: seq<Proposal>)
    ensures |ps| == |bids| && forall i :: 0 <= i < |ps| ==> ps[i] == bids[i].proposal
  {
    seq(|bids|, i requires 0 <= i < |bids| => bids[i].proposal)
  }

  lemma {:induction false} SealAllProposals(cfg: Config, w: World, name: Name, ps: seq<Proposal>, round: nat)
    requires !SealAll(cfg, w, name, ps, round).aborted
    ensures ProposalsOf(SealAll(cfg, w, name, ps, round).value) == ps
    decreases |ps|
  {
    hide Seal;
    if ps != [] { SealAllProposals(cfg, Seal(cfg, w, ps[0], round), name, ps[1..], round); }
  }

  lemma {:induction false} SightTrans(w: World, x: World, order: seq<Agent>, round: nat)
    requires SameSight(w, x)
    ensures ProposalsAt(x, order, round) == ProposalsAt(w, order, round)
    decreases |order|
  {
    if order != [] {
      SameSightSameView(w, x, order[0].name, round);
      SightTrans(w, x, order[1..], round);
    }
  }

  /**
   * Sealed bids: every agent's bids are its answer to the view of the world before the phase began,
   * so nothing another agent proposes in the round can influence them.
   */
  lemma {:induction false} SealedBidNonInterference(cfg: Config, terms: Terms, w: World, order: seq<Agent>, round: nat)
    requires Healthy(cfg.crypto, terms, w) && !CommitPhase(cfg, w, order, round).aborted
    ensures ProposalsOf(CommitPhase(cfg, w, order, round).value) == ProposalsAt(w, order, round)
    decreases |order|
  {
    hide Healthy, SealAll, Sealing, Onward, AllReady, SameSight, ViewFor;
    if order != [] {
      var ps := order[0].propose(ViewFor(w, order[0].name, round));
      var one := SealAll(cfg, w, order[0].name, ps, round);
      SealAllFacts(cfg, terms, w, order[0].name, ps, round);
      SealingParts(cfg, terms, w, one);
      SealAllProposals(cfg, w, order[0].name, ps, round);
      SealedBidNonInterference(cfg, terms, one.world, order[1..], round);
      SightTrans(w, one.world, order[1..], round);
    }
  }

  // ---------------------------------------------------------------- opening the bids

  lemma OpenFacts(cfg: Config, terms: Terms, w: World, bid: Bid, round: nat)
    requires Healthy(cfg.crypto, terms, w) && Ready(cfg.crypto, w.ledger, bid)
    ensures var x := OpenOne(cfg, w, bid, round);
            Healthy(cfg.crypto, terms, x) && Onward(w, x) && !IsRejected(Open(cfg, w, bid, round)) && x.rejections == w.rejections
  {
    hide Healthy, Sound, Onward, L.InsertAndApply, L.RejectReveal;
    var st := Open(cfg, w, bid, round);
    HealthyParts(cfg.crypto, terms, w);
    RevealGood(w.ledger, cfg.crypto, bid.commitment, bid.proposal, bid.nonce, round);
    QuietReveal(w.ledger, cfg.crypto, bid.commitment, bid.proposal, bid.nonce, round);
    OnLedgerHealthy(cfg.crypto, terms, w, st, round);
    var x := OnLedger(w, st, round);
    if st.out == L.LedgerError {
      SayHealthy(cfg.crypto, terms, x, round, [ClaimError(bid.agent, bid.commitment)]);
      OnwardTrans(w, x, Say(x, round, [ClaimError(bid.agent, bid.commitment)]));
    }
  }

  /** Opening one bid leaves the others as ready as they were. */
  lemma OpenKeepsOthers(cfg: Config, w: World, bid: Bid, other: Bid, round: nat)
    requires Ready(cfg.crypto, w.ledger, bid) && Ready(cfg.crypto, w.ledger, other) && other.commitment != bid.commitment
    ensures Ready(cfg.crypto, OpenOne(cfg, w, bid, round).ledger, other)
  {
    InsertKeepsDigests(L.AcceptReveal(w.ledger, bid.commitment, bid.nonce), w.ledger.claimSeq + 1, bid.proposal, round, Some(bid.commitment));
    hide L.InsertAndApply;
  }

  lemma {:induction false} RevealPhaseFacts(cfg: Config, terms: Terms, w: World, bids: seq<Bid>, round: nat)
    requires Healthy(cfg.crypto, terms, w) && AllReady(cfg.crypto, w.ledger, bids)
    ensures var out := RevealPhase(cfg, w, bids, round);
            Healthy(cfg.crypto, terms, out.world) && Onward(w, out.world) && out.value == 0 && out.world.rejections == w.rejections
    decreases |bids|
  {
    hide Healthy, Onward, OpenOne, Open, Ready;
    if bids == [] {
      assert Onward(w, w) by { OnwardRefl(w); }
    } else {
      assert bids[0] in bids;
      OpenFacts(cfg, terms, w, bids[0], round);
      var x := OpenOne(cfg, w, bids[0], round);
      forall b | b in bids[1..] ensures Ready(cfg.crypto, x.ledger, b) { OpenKeepsOthers(cfg, w, bids[0], b, round); }
      RevealPhaseFacts(cfg, terms, x, bids[1..], round);
      OnwardTrans(w, x, RevealPhase(cfg, x, bids[1..], round).world);
    }
  }

  lemma OnwardRefl(w: World)
    ensures Onward(w, w)
  {}

  /** A society never counts a rejected reveal: each reveal uses the proposal and nonce just sealed. */
  lemma CommitRevealFacts(cfg: Config, terms: Terms, w: World, order: seq<Agent>, round: nat)
    requires Healthy(cfg.crypto, terms, w)
    ensures var out := CommitReveal(cfg, w, order, round);
            && Healthy(cfg.crypto, terms, out.world) && Onward(w, out.world)
            && out.value.rejected == 0 && out.world.rejections == w.rejections
  {
    hide Healthy, Onward, CommitPhase, RevealPhase, Sealing, AllReady;
    CommitPhaseFacts(cfg, terms, w, order, round);
    var sealed := CommitPhase(cfg, w, order, round);
    SealingParts(cfg, terms, w, sealed);
    if !sealed.aborted {
      RevealPhaseFacts(cfg, terms, sealed.world, sealed.value, round);
      var shown := RevealPhase(cfg, sealed.world, sealed.value, round);
      OnwardTrans(w, sealed.world, shown.world);
      assert shown.world.(rejections := shown.world.rejections + shown.value) == shown.world;
    }
  }

  // ---------------------------------------------------------------- positions

  /** The phase lemmas share this conclusion. */
  ghost predicate Fine(c: Crypto, terms: Terms, w: World, x: World) {
    Healthy(c, terms, x) && Onward(w, x) && x.rejections == w.rejections
  }

  lemma FineTrans(c: Crypto, terms: Terms, w: World, x: World, y: World)
    requires Fine(c, terms, w, x) && Fine(c, terms, x, y)
    ensures Fine(c, terms, w, y)
  {
    OnwardTrans(w, x, y);
  }

  lemma FineRefl(c: Crypto, terms: Terms, w: World)
    requires Healthy(c, terms, w)
    ensures Fine(c, terms, w, w)
  {
    OnwardRefl(w);
  }

  lemma FineSay(c: Crypto, terms: Terms, w: World, round: nat, events: seq<Event>)
    requires Healthy(c, terms, w) && forall e :: e in events ==> Plain(terms, e)
    ensures Fine(c, terms, w, Say(w, round, events))
  {
    SayHealthy(c, terms, w, round, events);
  }

  lemma FineRelease(c: Crypto, terms: Terms, w: World, agent: Name, id: nat, bens: Option<seq<Name>>, round: nat)
    requires Healthy(c, terms, w)
    ensures Fine(c, terms, w, OnLedger(w, L.Release(w.ledger, agent, id, bens, round), round))
  {
    HealthyParts(c, terms, w);
    ReleaseGood(w.ledger, c, agent, id, bens, round);
    QuietRelease(w.ledger, agent, id, bens, round);
    OnLedgerHealthy(c, terms, w, L.Release(w.ledger, agent, id, bens, round), round);
  }

  lemma FineWithdraw(c: Crypto, terms: Terms, w: World, agent: Name, id: nat, round: nat)
    requires Healthy(c, terms, w)
    ensures Fine(c, terms, w, OnLedger(w, L.Withdraw(w.ledger, agent, id, round), round))
  {
    HealthyParts(c, terms, w);
    WithdrawGood(w.ledger, c, agent, id, round);
    OnLedgerHealthy(c, terms, w, L.Withdraw(w.ledger, agent, id, round), round);
  }

  lemma FineVoid(c: Crypto, terms: Terms, w: World, id: nat, round: nat)
    requires Healthy(c, terms, w)
    ensures Fine(c, terms, w, OnLedger(w, L.VoidClaim(w.ledger, id, round), round))
  {
    HealthyParts(c, terms, w);
    VoidGood(w.ledger, c, id, round);
    QuietVoid(w.ledger, id, round);
    OnLedgerHealthy(c, terms, w, L.VoidClaim(w.ledger, id, round), round);
  }

  lemma FineRule(c: Crypto, terms: Terms, w: World, op: RulingOp, ruling: nat, round: nat)
    requires Healthy(c, terms, w)
    ensures Fine(c, terms, w, OnLedger(w, L.RuleOp(w.ledger, op, ruling, round), round))
  {
    HealthyParts(c, terms, w);
    RuleOpGood(w.ledger, c, op, ruling, round);
    QuietRule(w.ledger, op, ruling, round);
    OnLedgerHealthy(c, terms, w, L.RuleOp(w.ledger, op, ruling, round), round);
  }

  lemma FineBank(c: Crypto, terms: Terms, w: World, op: B.Op, round: nat)
    requires Healthy(c, terms, w)
    ensures Fine(c, terms, w, OnBank(w, B.Do(w.bank, op, round), round))
  {
    BankDo(c, terms, w, op, round);
  }

  lemma FineSame(c: Crypto, terms: Terms, w: World, x: World)
    requires Healthy(c, terms, w) && x.ledger == w.ledger && x.log == w.log && x.bank == w.bank
    requires x.deadlocks == w.deadlocks && x.detector.fired == w.detector.fired && x.rejections == w.rejections
    ensures Fine(c, terms, w, x)
  {
    SameParts(c, terms, w, x);
  }

  lemma FineProcess(c: Crypto, terms: Terms, w: World, pos: Position, round: nat)
    requires Healthy(c, terms, w)
    ensures Fine(c, terms, w, ProcessPosition(w, pos, round).world)
  {
    hide Fine, Healthy, L.Release, L.Withdraw, B.OpenContest, Say;
    FineRefl(c, terms, w);
    FineSay(c, terms, w, round, [PositionNote(pos.agent, pos.target)]);
    FineRelease(c, terms, w, pos.agent, pos.target, pos.release, round);
    FineWithdraw(c, terms, w, pos.agent, pos.target, round);
    FineBank(c, terms, w, B.DoOpen(pos), round);
  }

  lemma FineFile(c: Crypto, terms: Terms, w: World, pos: Position, round: nat)
    requires Healthy(c, terms, w)
    ensures Fine(c, terms, w, File(w, pos, round))
  {
    var x := Say(w, round, [PositionFiled(pos)]);
    FineSay(c, terms, w, round, [PositionFiled(pos)]);
    FineSame(c, terms, x, File(w, pos, round));
    FineTrans(c, terms, w, x, File(w, pos, round));
  }

  lemma FineHealthy(c: Crypto, terms: Terms, w: World, x: World)
    requires Fine(c, terms, w, x)
    ensures Healthy(c, terms, x)
  {}

  lemma {:induction false} FineFileAll(c: Crypto, terms: Terms, w: World, name: Name, ps: seq<Position>, round: nat)
    requires Healthy(c, terms, w)
    ensures Fine(c, terms, w, FileAll(w, name, ps, round).world)
    decreases |ps|
  {
    hide Fine, Healthy, ProcessPosition, File;
    FineRefl(c, terms, w);
    if ps != [] && ps[0].agent == name {
      var x := File(w, ps[0], round);
      FineFile(c, terms, w, ps[0], round);
      FineHealthy(c, terms, w, x);
      var y := ProcessPosition(x, ps[0], round);
      FineProcess(c, terms, x, ps[0], round);
      FineTrans(c, terms, w, x, y.world);
      FineHealthy(c, terms, w, y.world);
      if !y.aborted {
        FineFileAll(c, terms, y.world, name, ps[1..], round);
        FineTrans(c, terms, w, y.world, FileAll(y.world, name, ps[1..], round).world);
      }
    }
  }

  lemma {:induction false} FinePositions(c: Crypto, terms: Terms, w: World, order: seq<Agent>, round: nat)
    requires Healthy(c, terms, w)
    ensures Fine(c, terms, w, PositionPhase(w, order, round).world)
    decreases |order|
  {
    hide Fine, Healthy, FileAll, ViewFor;
    FineRefl(c, terms, w);
    if order != [] {
      var ps := order[0].respond(ViewFor(w, order[0].name, round));
      FineFileAll(c, terms, w, order[0].name, ps, round);
      var x := FileAll(w, order[0].name, ps, round);
      FineHealthy(c, terms, w, x.world);
      if !x.aborted {
        FinePositions(c, terms, x.world, order[1..], round);
        FineTrans(c, terms, w, x.world, PositionPhase(x.world, order[1..], round).world);
      }
    }
  }

  // ---------------------------------------------------------------- detection

  lemma FineDetect(c: Crypto, terms: Terms, w: World, round: nat)
    requires Healthy(c, terms, w)
    ensures Fine(c, terms, w, Detect(w, round).world)
  {
    hide D.Scan, D.Fresh, Challenges, Say, Healthy, Fine, D.ContestedNow, D.Advance;
    KeysFresh(c, terms, w);
    var xs := Challenges(w.bank);
    var f := D.Scan(w.detector, w.ledger, xs, round);
    D.ScanFresh(w.detector, w.ledger, xs, round);
    D.FreshConcat({}, w.deadlocks, w.detector.fired, f.deadlocks, f.state.fired);
    var x := Say(w, round, Announce(f.deadlocks));
    FineSay(c, terms, w, round, Announce(f.deadlocks));
    SayOnly(w, round, Announce(f.deadlocks));
    FineHealthy(c, terms, w, x);
    Reported(c, terms, x, f.state, f.deadlocks);
    FineTrans(c, terms, w, x, Detect(w, round).world);
  }

  lemma KeysFresh(c: Crypto, terms: Terms, w: World)
    requires Healthy(c, terms, w)
    ensures D.Fresh({}, w.deadlocks, w.detector.fired)
  {}

  lemma Reported(c: Crypto, terms: Terms, x: World, d: D.State, ds: seq<Deadlock>)
    requires Healthy(c, terms, x) && D.Fresh({}, x.deadlocks + ds, d.fired)
    ensures Fine(c, terms, x, x.(detector := d, deadlocks := x.deadlocks + ds))
  {
    hide D.Fresh, Sound, Tells, V.Raises, B.Kept;
    EvolvesRefl(x.ledger);
  }

  lemma SayOnly(w: World, round: nat, events: seq<Event>)
    ensures Say(w, round, events) == w.(log := Say(w, round, events).log)
  {}

  // ---------------------------------------------------------------- rulings

  /** A resolver in use resolves no blank citation, or else every citation that is not blank. */
  ghost predicate ResolvesSafely(cfg: Config) {
    cfg.resolver.Some? ==>
      || (forall s :: cfg.resolver.value(s).Some? ==> !Blank(s))
      || (forall s :: !Blank(s) ==> cfg.resolver.value(s).Some?)
  }

  lemma {:induction false} ResolveFacts(resolver: string -> Option<Bytes>, cs: seq<string>, ruling: nat)
    ensures var r := Resolve(resolver, cs, ruling);
            && (forall s :: s in r.valid <==> s in cs && resolver(s).Some?)
            && (forall e :: e in r.dropped ==> e.CitationDropped?)
            && r.hashes.Keys == Elems(r.valid) && (forall s :: s in r.hashes ==> resolver(s) == Some(r.hashes[s]))
    decreases |cs|
  {
    if cs != [] { ResolveFacts(resolver, cs[1..], ruling); }
  }

  lemma ResolvedCites(cfg: Config, r: Ruling, ruling: nat)
    requires ResolvesSafely(cfg) && ResolveAll(cfg, r, ruling).valid != []
    ensures Cites(ResolveAll(cfg, r, ruling).valid)
  {
    if cfg.resolver.Some? {
      ResolveFacts(cfg.resolver.value, r.citations, ruling);
      var v := ResolveAll(cfg, r, ruling).valid;
      assert v[0] in v;
    }
  }

  lemma {:induction false} FineOps(c: Crypto, terms: Terms, w: World, ops: seq<RulingOp>, ruling: nat, round: nat)
    requires Healthy(c, terms, w)
    ensures Fine(c, terms, w, ApplyOps(w, ops, ruling, round).world)
    decreases |ops|
  {
    hide Fine, Healthy, L.RuleOp;
    FineRefl(c, terms, w);
    if ops != [] {
      var st := L.RuleOp(w.ledger, ops[0], ruling, round);
      var x := OnLedger(w, st, round);
      FineRule(c, terms, w, ops[0], ruling, round);
      FineHealthy(c, terms, w, x);
      if st.out == L.Ok {
        FineOps(c, terms, x, ops[1..], ruling, round);
        FineTrans(c, terms, w, x, ApplyOps(x, ops[1..], ruling, round).world);
      } else if st.out == L.LedgerError {
        var y := Say(x, round, [OpRejected(ruling, ops[0])]);
        FineSay(c, terms, x, round, [OpRejected(ruling, ops[0])]);
        FineTrans(c, terms, w, x, y);
        FineHealthy(c, terms, x, y);
        FineOps(c, terms, y, ops[1..], ruling, round);
        FineTrans(c, terms, w, y, ApplyOps(y, ops[1..], ruling, round).world);
      }
    }
  }

  lemma FineVerdict(c: Crypto, terms: Terms, w: World, x: ContestView, r: RulingFields, touched: set<nat>, round: nat)
    requires Healthy(c, terms, w)
    ensures Fine(c, terms, w, OnBank(w, Verdict(w.bank, x, r, touched), round))
  {
    hide Fine, Healthy, B.Settle, B.VoidContest;
    if x.agent in r.winners {
      FineBank(c, terms, w, B.DoSettle(x.id, true), round);
    } else if x.agent in r.losers {
      FineBank(c, terms, w, B.DoSettle(x.id, false), round);
    } else if x.target in touched {
      FineBank(c, terms, w, B.DoVoid(x.id), round);
    } else {
      FineSay(c, terms, w, round, []);
    }
  }

  lemma {:induction false} FineSettle(c: Crypto, terms: Terms, w: World, xs: seq<ContestView>, r: RulingFields, touched: set<nat>, round: nat)
    requires Healthy(c, terms, w)
    ensures Fine(c, terms, w, SettleAll(w, xs, r, touched, round).world)
    decreases |xs|
  {
    hide Fine, Healthy, Verdict;
    FineRefl(c, terms, w);
    if xs != [] {
      var st := Verdict(w.bank, xs[0], r, touched);
      var x := OnBank(w, st, round);
      FineVerdict(c, terms, w, xs[0], r, touched, round);
      FineHealthy(c, terms, w, x);
      if st.out != B.CurrencyError {
        FineSettle(c, terms, x, xs[1..], r, touched, round);
        FineTrans(c, terms, w, x, SettleAll(x, xs[1..], r, touched, round).world);
      }
    }
  }

  lemma {:induction false} ResetFired(d: D.State, rs: seq<Name>)
    ensures ResetAll(d, rs).fired == d.fired && ResetAll(d, rs).threshold == d.threshold
    decreases |rs|
  {
    if rs != [] { ResetFired(D.ResetResource(d, rs[0]), rs[1..]); }
  }

  lemma FineDropped(cfg: Config, terms: Terms, w: World, r: RulingFields, id: nat, round: nat)
    requires Healthy(cfg.crypto, terms, w)
    ensures Fine(cfg.crypto, terms, w, Say(w, round, ResolveAll(cfg, r, id).dropped))
  {
    if cfg.resolver.Some? { ResolveFacts(cfg.resolver.value, r.citations, id); }
    FineSay(cfg.crypto, terms, w, round, ResolveAll(cfg, r, id).dropped);
  }

  /** A ruling that is recorded cites a source; one that is not leaves only its rejection in the log. */
  lemma FineSign(cfg: Config, terms: Terms, w0: World, r: Ruling, round: nat, dl: Option<Deadlock>)
    requires Healthy(cfg.crypto, terms, w0) && (terms.cited ==> ResolvesSafely(cfg))
    ensures Fine(cfg.crypto, terms, w0, SignAndApply(cfg, w0, r, round, dl).world)
  {
    hide Fine, Healthy, ResolveAll, ApplyOps, SettleAll, ResetAll, ContestsView, Say;
    var c := cfg.crypto;
    var id := w0.rulingSeq + 1;
    var w := w0.(rulingSeq := id);
    FineSame(c, terms, w0, w);
    FineHealthy(c, terms, w0, w);
    FineDropped(cfg, terms, w, r, id, round);
    var res := ResolveAll(cfg, r, id);
    var d := Say(w, round, res.dropped);
    FineTrans(c, terms, w0, w, d);
    FineHealthy(c, terms, w, d);
    if res.valid == [] {
      FineSay(c, terms, d, round, [RulingRejected(id, r.citations)]);
      FineTrans(c, terms, w0, d, Say(d, round, [RulingRejected(id, r.citations)]));
    } else {
      if terms.cited { ResolvedCites(cfg, r, id); }
      var signed := SignedRuling(id, round, r.(citations := res.valid), res.hashes);
      FineRecord(c, terms, w0, d, w.rulings + [signed], signed, round);
      FineApply(c, terms, w0, Say(d, round, [RulingSigned(signed)]).(rulings := w.rulings + [signed]), r, id, round, dl);
    }
  }

  lemma FineRecord(c: Crypto, terms: Terms, w0: World, d: World, rulings: seq<SignedRuling>, signed: SignedRuling, round: nat)
    requires Fine(c, terms, w0, d) && (terms.cited ==> Cites(signed.body.citations))
    ensures Fine(c, terms, w0, Say(d, round, [RulingSigned(signed)]).(rulings := rulings))
  {
    hide Fine, Healthy, Say;
    FineHealthy(c, terms, w0, d);
    var e := Say(d, round, [RulingSigned(signed)]);
    FineSay(c, terms, d, round, [RulingSigned(signed)]);
    FineHealthy(c, terms, d, e);
    FineSame(c, terms, e, e.(rulings := rulings));
    FineTrans(c, terms, w0, d, e);
    FineTrans(c, terms, w0, e, e.(rulings := rulings));
  }

  lemma FineApply(c: Crypto, terms: Terms, w0: World, w1: World, r: RulingFields, id: nat, round: nat, dl: Option<Deadlock>)
    requires Fine(c, terms, w0, w1)
    ensures var w2 := ApplyOps(w1, r.ops, id, round);
            var w3 := SettleAll(w2.world, ContestsView(w2.world.bank), r, TouchedBy(r, dl), round);
            && Fine(c, terms, w0, w2.world) && Fine(c, terms, w0, w3.world)
            && forall rs :: Fine(c, terms, w0, w3.world.(detector := ResetAll(w3.world.detector, rs)))
  {
    FineHealthy(c, terms, w0, w1);
    var w2 := ApplyOps(w1, r.ops, id, round);
    FineOps(c, terms, w1, r.ops, id, round);
    FineTrans(c, terms, w0, w1, w2.world);
    FineHealthy(c, terms, w0, w2.world);
    var xs := ContestsView(w2.world.bank);
    FineSettle(c, terms, w2.world, xs, r, TouchedBy(r, dl), round);
    var w3 := SettleAll(w2.world, xs, r, TouchedBy(r, dl), round);
    FineTrans(c, terms, w0, w2.world, w3.world);
    FineHealthy(c, terms, w0, w3.world);
    forall rs ensures Fine(c, terms, w0, w3.world.(detector := ResetAll(w3.world.detector, rs))) {
      var y := w3.world.(detector := ResetAll(w3.world.detector, rs));
      ResetFired(w3.world.detector, rs);
      FineSame(c, terms, w3.world, y);
      FineTrans(c, terms, w0, w3.world, y);
    }
  }

  lemma {:induction false} FineMediate(cfg: Config, terms: Terms, m: Mediator, w: World, ds: seq<Deadlock>, round: nat)
    requires Healthy(cfg.crypto, terms, w) && (terms.cited ==> ResolvesSafely(cfg))
    ensures Fine(cfg.crypto, terms, w, MediateAll(cfg, m, w, ds, round).world)
    decreases |ds|
  {
    hide Fine, Healthy, SignAndApply, MediatorViewFor;
    FineRefl(cfg.crypto, terms, w);
    if ds != [] {
      var ps := Relevant(w.positions, ds[0]);
      var ruling := m.rule(ds[0], ps, MediatorViewFor(w, round, ps, [ds[0]]));
      FineSign(cfg, terms, w, ruling, round, Some(ds[0]));
      var one := SignAndApply(cfg, w, ruling, round, Some(ds[0]));
      FineHealthy(cfg.crypto, terms, w, one.world);
      if !one.aborted {
        FineMediate(cfg, terms, m, one.world, ds[1..], round);
        FineTrans(cfg.crypto, terms, w, one.world, MediateAll(cfg, m, one.world, ds[1..], round).world);
      }
    }
  }

  // ---------------------------------------------------------------- rounds

  lemma FineCommitReveal(cfg: Config, terms: Terms, w: World, order: seq<Agent>, round: nat)
    requires Healthy(cfg.crypto, terms, w)
    ensures Fine(cfg.crypto, terms, w, CommitReveal(cfg, w, order, round).world)
  {
    hide Healthy, Onward, CommitReveal;
    CommitRevealFacts(cfg, terms, w, order, round);
  }

  lemma FineUntilDetect(cfg: Config, terms: Terms, w: World, round: nat)
    requires Healthy(cfg.crypto, terms, w) && round >= 1
    ensures Fine(cfg.crypto, terms, w, UntilDetect(cfg, w, round).world)
  {
    hide Fine, Healthy, CommitReveal, PositionPhase, Detect, Say;
    var c := cfg.crypto;
    FineRefl(c, terms, w);
    if cfg.agents != [] {
      var order := Rotated(cfg.agents, round);
      var a := Say(w, round, [RoundStart(Names(order))]);
      FineSay(c, terms, w, round, [RoundStart(Names(order))]);
      FineHealthy(c, terms, w, a);
      FineCommitReveal(cfg, terms, a, order, round);
      var b := CommitReveal(cfg, a, order, round);
      FineTrans(c, terms, w, a, b.world);
      FineHealthy(c, terms, w, b.world);
      if !b.aborted {
        FinePositions(c, terms, b.world, order, round);
        var p := PositionPhase(b.world, order, round);
        FineTrans(c, terms, w, b.world, p.world);
        FineHealthy(c, terms, w, p.world);
        if !p.aborted {
          FineDetect(c, terms, p.world, round);
          FineTrans(c, terms, w, p.world, Detect(p.world, round).world);
        }
      }
    }
  }

  lemma FineClose(c: Crypto, terms: Terms, w: World, t: Tally, positions: nat, deadlocks: nat, round: nat)
    requires Healthy(c, terms, w)
    ensures Fine(c, terms, w, CloseRound(w, t, positions, deadlocks, round).world)
  {
    hide Fine, Healthy, L.IdsWith, B.OpenIds, Say;
    var blocked, open := |L.IdsWith(w.ledger, Blocked)|, |B.OpenIds(w.bank)|;
    var end := RoundEnd(t.commits, t.rejected, positions, blocked, open, deadlocks);
    var w1 := Say(w, round, [end]);
    FineSay(c, terms, w, round, [end]);
    FineHealthy(c, terms, w, w1);
    FineSay(c, terms, w1, round, [Quiescent]);
    FineTrans(c, terms, w, w1, Say(w1, round, [Quiescent]));
  }

  /** From detection to the end of the round. */
  lemma FineBack(cfg: Config, terms: Terms, w: World, round: nat)
    requires Healthy(cfg.crypto, terms, w) && (terms.cited ==> ResolvesSafely(cfg)) && round >= 1 && !UntilDetect(cfg, w, round).aborted
    ensures Fine(cfg.crypto, terms, UntilDetect(cfg, w, round).world, Round(cfg, w, round).world)
  {
    var c := cfg.crypto;
    hide Fine, Healthy, UntilDetect, MediateAll, CloseRound, ResolvesSafely;
    FineUntilDetect(cfg, terms, w, round);
    var front := UntilDetect(cfg, w, round);
    FineHealthy(c, terms, w, front.world);
    var (tally, positions, ds) := front.value;
    FineRefl(c, terms, front.world);
    if cfg.mediator.Some? { FineMediate(cfg, terms, cfg.mediator.value, front.world, ds, round); }
    var med := AfterDetect(cfg, front.world, ds, round);
    FineHealthy(c, terms, front.world, med.world);
    if !med.aborted {
      FineClose(c, terms, med.world, tally, positions, |ds|, round);
      FineTrans(c, terms, front.world, med.world, CloseRound(med.world, tally, positions, |ds|, round).world);
    }
  }

  lemma FineRound(cfg: Config, terms: Terms, w: World, round: nat)
    requires Healthy(cfg.crypto, terms, w) && (terms.cited ==> ResolvesSafely(cfg)) && round >= 1
    ensures Fine(cfg.crypto, terms, w, Round(cfg, w, round).world)
  {
    hide Fine, Healthy, UntilDetect, AfterDetect, CloseRound, ResolvesSafely;
    FineUntilDetect(cfg, terms, w, round);
    if !UntilDetect(cfg, w, round).aborted {
      FineBack(cfg, terms, w, round);
      FineTrans(cfg.crypto, terms, w, UntilDetect(cfg, w, round).world, Round(cfg, w, round).world);
    }
  }

  // ---------------------------------------------------------------- finalization

  lemma {:induction false} FineVoidContests(c: Crypto, terms: Terms, w: World, xs: seq<ContestView>, round: nat)
    requires Healthy(c, terms, w)
    ensures Fine(c, terms, w, VoidContests(w, xs, round).world)
    decreases |xs|
  {
    hide Fine, Healthy, B.VoidContest;
    FineRefl(c, terms, w);
    if xs != [] {
      var st := B.VoidContest(w.bank, xs[0].id);
      var x := OnBank(w, st, round);
      FineBank(c, terms, w, B.DoVoid(xs[0].id), round);
      FineHealthy(c, terms, w, x);
      if st.out != B.CurrencyError {
        FineVoidContests(c, terms, x, xs[1..], round);
        FineTrans(c, terms, w, x, VoidContests(x, xs[1..], round).world);
      }
    }
  }

  lemma {:induction false} FineVoidClaims(c: Crypto, terms: Terms, w: World, ids: seq<nat>, round: nat)
    requires Healthy(c, terms, w)
    ensures Fine(c, terms, w, VoidClaims(w, ids, round).world)
    decreases |ids|
  {
    hide Fine, Healthy, L.VoidClaim;
    FineRefl(c, terms, w);
    if ids != [] {
      var st := L.VoidClaim(w.ledger, ids[0], round);
      var x := OnLedger(w, st, round);
      FineVoid(c, terms, w, ids[0], round);
      FineHealthy(c, terms, w, x);
      if st.out == L.Ok {
        FineVoidClaims(c, terms, x, ids[1..], round);
        FineTrans(c, terms, w, x, VoidClaims(x, ids[1..], round).world);
      }
    }
  }

  function QuarantineTarget(w: World, t: nat, round: nat): World {
    if t in w.ledger.claims && w.ledger.claims[t].status == Granted
    then OnLedger(w, L.VoidClaim(w.ledger, t, round), round) else w
  }

  lemma {:induction false} FineQuarantine(c: Crypto, terms: Terms, w: World, xs: seq<ContestView>, round: nat)
    requires Healthy(c, terms, w)
    ensures Fine(c, terms, w, Quarantine(w, xs, round).world)
    decreases |xs|
  {
    hide Fine, Healthy, L.VoidClaim, B.VoidContest;
    FineRefl(c, terms, w);
    if xs != [] {
      var t := xs[0].target;
      var x := QuarantineTarget(w, t, round);
      FineVoid(c, terms, w, t, round);
      FineHealthy(c, terms, w, x);
      var st := B.VoidContest(x.bank, xs[0].id);
      var y := OnBank(x, st, round);
      FineBank(c, terms, x, B.DoVoid(xs[0].id), round);
      FineTrans(c, terms, w, x, y);
      FineHealthy(c, terms, w, y);
      if st.out != B.CurrencyError {
        FineQuarantine(c, terms, y, xs[1..], round);
        FineTrans(c, terms, w, y, Quarantine(y, xs[1..], round).world);
      }
    }
  }

  lemma FineFinalize(cfg: Config, terms: Terms, w: World, round: nat)
    requires Healthy(cfg.crypto, terms, w) && (terms.cited ==> ResolvesSafely(cfg))
    ensures Fine(cfg.crypto, terms, w, Finalize(cfg, w, round).world)
  {
    hide Fine, Healthy, SignAndApply, VoidContests, VoidClaims, FiatDeadlock, Quarantine, Say, ResolvesSafely, L.IdsWith, ContestsView;
    var c := cfg.crypto;
    match cfg.mediator {
      case Some(m) =>
        var dl := FiatDeadlock(w, round);
        var ruling := m.fiat(MediatorViewFor(w, round, AllPositions(w.positions), [dl]));
        var a := Say(w, round, [FiatCalled]);
        FineSay(c, terms, w, round, [FiatCalled]);
        FineHealthy(c, terms, w, a);
        FineSign(cfg, terms, a, ruling, round, Some(dl));
        var one := SignAndApply(cfg, a, ruling, round, Some(dl));
        FineTrans(c, terms, w, a, one.world);
        FineHealthy(c, terms, w, one.world);
        FineVoidContests(c, terms, one.world, ContestsView(one.world.bank), round);
        var two := VoidContests(one.world, ContestsView(one.world.bank), round);
        FineTrans(c, terms, w, one.world, two.world);
        FineHealthy(c, terms, w, two.world);
        FineVoidClaims(c, terms, two.world, L.IdsWith(two.world.ledger, Blocked), round);
        FineTrans(c, terms, w, two.world, VoidClaims(two.world, L.IdsWith(two.world.ledger, Blocked), round).world);
      case None =>
        var a := Say(w, round, [SafetyFinalize]);
        FineSay(c, terms, w, round, [SafetyFinalize]);
        FineHealthy(c, terms, w, a);
        FineQuarantine(c, terms, a, ContestsView(a.bank), round);
        var one := Quarantine(a, ContestsView(a.bank), round);
        FineTrans(c, terms, w, a, one.world);
        FineHealthy(c, terms, w, one.world);
        FineVoidClaims(c, terms, one.world, L.IdsWith(one.world.ledger, Blocked), round);
        FineTrans(c, terms, w, one.world, VoidClaims(one.world, L.IdsWith(one.world.ledger, Blocked), round).world);
    }
  }

  lemma FineFinish(cfg: Config, terms: Terms, w: World, rounds: nat, quiescent: bool)
    requires Healthy(cfg.crypto, terms, w) && (terms.cited ==> ResolvesSafely(cfg))
    ensures Fine(cfg.crypto, terms, w, Finish(cfg, w, rounds, quiescent).world)
  {
    hide Fine, Finalize, Healthy, L.ManifestNow, Say;
    var c := cfg.crypto;
    FineRefl(c, terms, w);
    if !quiescent { FineFinalize(cfg, terms, w, rounds); }
    var fin := if quiescent then Out(w, (), false) else Finalize(cfg, w, rounds);
    FineHealthy(c, terms, w, fin.world);
    var m := L.ManifestNow(fin.world.ledger);
    FineSay(c, terms, fin.world, rounds, [ManifestRecorded(m, ManifestHash(c, m), rounds, quiescent)]);
    FineTrans(c, terms, w, fin.world, RecordManifest(c, fin.world, rounds, quiescent));
  }

  /** Every run, returned or aborted, ends in a healthy world. */
  lemma {:induction false} FineRun(cfg: Config, terms: Terms, w: World, round: nat)
    requires Healthy(cfg.crypto, terms, w) && (terms.cited ==> ResolvesSafely(cfg)) && round >= 1
    ensures Fine(cfg.crypto, terms, w, RunFrom(cfg, w, round).world)
    decreases cfg.maxRounds + 1 - round
  {
    hide Fine, Healthy, Round, Finish, ResolvesSafely;
    if round > cfg.maxRounds {
      FineFinish(cfg, terms, w, round - 1, false);
    } else {
      FineRound(cfg, terms, w, round);
      var out := Round(cfg, w, round);
      FineHealthy(cfg.crypto, terms, w, out.world);
      if !out.aborted {
        if out.value {
          FineFinish(cfg, terms, out.world, round, true);
        } else {
          FineRun(cfg, terms, out.world, round + 1);
        }
        FineTrans(cfg.crypto, terms, w, out.world, RunFrom(cfg, w, round).world);
      }
    }
  }
}
