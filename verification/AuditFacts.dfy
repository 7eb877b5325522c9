/** When the auditor accepts the log of a ledger, and exactly when it raises on one. */
module AuditFacts {
  import opened Order
  import opened Schemas
  import opened Ledger
  import opened LedgerFacts
  import opened Books
  import opened ChainLog
  import V = Verify

  lemma ManifestWithin(s: State)
    requires Sound(s)
    ensures V.WithinCapacity(ManifestNow(s), s.resources)
  {
    hide Exclusive, Filed, On;
    var m := ManifestNow(s);
    forall r | r in m ensures |m[r]| <= V.CapacityIn(s.resources, r) {
      var k :| k in s.allocs.Keys && k.0 == r;
      assert r in s.resources;
      assert Used(s.allocs, r) <= s.resources[r].capacity;
    }
  }

  lemma NoSharedUnit(s: State, r: Name, q: Name, b: Name)
    requires Sound(s) && r != q && (r, b) in s.allocs && (q, b) in s.allocs && s.resources[r].group.Some?
    ensures s.resources[r].group != s.resources[q].group
  {
    hide Within, Filed;
    assert !SameUnit(s.allocs, (r, b), (q, b));
  }

  lemma ManifestClear(s: State)
    requires Sound(s)
    ensures V.NoClash(ManifestNow(s), s.resources)
  {
    hide Within, Filed, Exclusive;
    var m := ManifestNow(s);
    forall r, q | r in m && q in m ensures !V.Clash(m, s.resources, r, q) {
      if b :| b in m[r] && b in m[q] && r != q && s.resources[r].group.Some? { NoSharedUnit(s, r, q, b); }
    }
  }

  lemma FairMeans(c: Crypto, log: Log, digests: map<nat, Bytes>)
    ensures (forall e :: e in log ==> Fair(c, digests, e.event)) ==>
            V.AcceptedMatch(c, log, digests) && V.RejectedMismatch(c, log, digests)
  {}

  /** A sound ledger, a log that tells its story and ends with its manifest: every check passes. */
  lemma SoundPasses(c: Crypto, s: State, log: Log)
    requires Sound(s) && Tells(c, log, s) && V.RulingsCite(log) && log != [] && log[0].event.Genesis?
    requires V.LastManifest(log) == Some(V.Recorded(ManifestNow(s), ManifestHash(c, ManifestNow(s))))
    ensures V.Passes(c, Chain(c, log))
  {
    hide Chain, ChainOk, Sound, ManifestOf, V.WithinCapacity, V.NoClash, ReadAll, Fair, V.LastManifest, V.Raises;
    hide V.RulingsCite, V.AcceptedMatch, V.RejectedMismatch;
    ManifestWithin(s);
    ManifestClear(s);
    BuiltChainVerifies(c, log);
    FairMeans(c, log, AccountsOf(s).digests);
    assert ReadAll(BLANK, log) == AccountsOf(s);
    assert V.Replayed(log) == ManifestNow(s);
  }

  // ---------------------------------------------------------------- when the reveal check raises

  /** A reveal the ledger goes as far as recording, with a nonce of the wrong length. */
  predicate Malformed(s: State, call: Call) {
    call.op.DoReveal? && Revealable(s, call.op.commitment, call.op.proposal) && |call.op.nonce| != NONCE_BYTES
  }

  predicate HasBadNonce(events: seq<Event>) {
    exists e :: e in events && V.BadNonce(e)
  }

  lemma NoNonceInInsert(s: State, id: nat, p: Proposal, round: nat, m: Option<nat>)
    ensures !HasBadNonce(InsertAndApply(s, id, p, round, m).events)
  {
    hide TryAllocate;
  }

  lemma NoNonceInTakeBack(s: State, id: nat, targets: seq<Name>, emptied: Status, round: nat)
    requires id in s.claims
    ensures !HasBadNonce(TakeBack(s, id, targets, emptied, round).events)
  {
    hide Deallocate;
  }

  lemma NoNonceInVoid(s: State, id: nat, round: nat)
    ensures !HasBadNonce(VoidClaim(s, id, round).events)
  {
    hide Deallocate, Holders, HolderList, SetStatus;
  }

  lemma NoNonceInRule(s: State, op: RulingOp, ruling: nat, round: nat)
    ensures !HasBadNonce(RuleOp(s, op, ruling, round).events)
  {
    hide TakeBack, VoidClaim, TryAllocate;
    if op.claim in s.claims {
      NoNonceInTakeBack(s, op.claim, Targets(s, op.claim, op.beneficiaries), Revoked, round);
      NoNonceInVoid(s, op.claim, round);
    }
  }

  /** A reveal records a malformed nonce exactly when it is given one and gets as far as the digest check. */
  lemma RevealNonce(s: State, c: Crypto, cid: nat, p: Proposal, nonce: Bytes, round: nat)
    ensures HasBadNonce(Reveal(s, c, cid, p, nonce, round).events) <==> Revealable(s, cid, p) && |nonce| != NONCE_BYTES
  {
    hide InsertAndApply;
    var st := Reveal(s, c, cid, p, nonce, round);
    if Revealable(s, cid, p) {
      NoNonceInInsert(AcceptReveal(s, cid, nonce), s.claimSeq + 1, p, round, Some(cid));
      assert st.events[0] in st.events;
    }
  }

  /** One call writes a malformed nonce exactly when it is a malformed reveal. */
  lemma StepNonce(s: State, c: Crypto, call: Call)
    ensures HasBadNonce(Do(s, c, call.op, call.round).events) <==> Malformed(s, call)
  {
    hide Reveal, InsertAndApply, VoidClaim, RuleOp, TakeBack, Revealable;
    match call.op
    case DoReveal(cid, p, nonce) => RevealNonce(s, c, cid, p, nonce, call.round);
    case DoSubmit(p) => NoNonceInInsert(s.(claimSeq := s.claimSeq + 1), s.claimSeq + 1, p, call.round, None);
    case DoRelease(agent, id, bens) => if id in s.claims { NoNonceInTakeBack(s, id, Targets(s, id, bens), Released, call.round); }
    case DoVoid(id) => NoNonceInVoid(s, id, call.round);
    case DoRule(op, ruling) => NoNonceInRule(s, op, ruling, call.round);
    case _ =>
  }

  lemma RaisesMore(log: Log, round: nat, events: seq<Event>)
    ensures V.Raises(log + Stamp(round, events)) <==> V.Raises(log) || HasBadNonce(events)
  {
    var more := Stamp(round, events);
    if x :| x in log && V.BadNonce(x.event) { assert x in log + more; }
    if e :| e in events && V.BadNonce(e) {
      var i :| 0 <= i < |events| && events[i] == e;
      assert more[i] in log + more;
    }
    if x :| x in log + more && V.BadNonce(x.event) {
      assert x in log || x.event in events;
    }
  }

  /** Some call of the history is a malformed reveal, in the state it meets. */
  ghost predicate SomeMalformed(r: Run, c: Crypto, calls: seq<Call>)
    decreases |calls|
  {
    calls != [] &&
    (Malformed(r.state, calls[0]) ||
     var st := Do(r.state, c, calls[0].op, calls[0].round);
     SomeMalformed(Run(st.state, r.log + Stamp(calls[0].round, st.events)), c, calls[1..]))
  }

  /**
   * The ledger rejects a malformed nonce quietly, but the auditor's reveal check raises on it: over any history
   * of calls it raises if and only if one of them was a reveal, of the caller's own unopened commitment, whose
   * nonce was not 16 bytes long.
   */
  lemma {:induction false} RaisesIffMalformed(r: Run, c: Crypto, calls: seq<Call>)
    ensures V.Raises(Play(r, c, calls).log) <==> V.Raises(r.log) || SomeMalformed(r, c, calls)
    decreases |calls|
  {
    hide Do, V.Raises, Malformed, HasBadNonce;
    if calls != [] {
      var st := Do(r.state, c, calls[0].op, calls[0].round);
      StepNonce(r.state, c, calls[0]);
      RaisesMore(r.log, calls[0].round, st.events);
      RaisesIffMalformed(Run(st.state, r.log + Stamp(calls[0].round, st.events)), c, calls[1..]);
    }
  }

  /**
   * The shortest such history: an agent commits, then opens its own commitment with any nonce. The ledger takes both
   * calls without an error; if the nonce is not 16 bytes long the audit raises on the log.
   */
  lemma TwoCallsThatRaise(c: Crypto, header: string, p: Proposal, digest: Bytes, nonce: Bytes, round: nat)
    requires |nonce| != NONCE_BYTES
    ensures var r := Run(EMPTY, [Stamped(0, Genesis(header))]);
            var first := Do(EMPTY, c, DoCommit(p.agent, digest), round);
            && first.out == Ok && Do(first.state, c, DoReveal(1, p, nonce), round).out == Ok
            && V.Raises(Play(r, c, [Call(DoCommit(p.agent, digest), round), Call(DoReveal(1, p, nonce), round)]).log)
  {
    var r := Run(EMPTY, [Stamped(0, Genesis(header))]);
    var commit, open := Call(DoCommit(p.agent, digest), round), Call(DoReveal(1, p, nonce), round);
    var calls := [commit, open];
    var first := Do(EMPTY, c, commit.op, round);
    assert calls[1..] == [open] && [open][0] == open;
    assert Malformed(first.state, open);
    var next := Run(first.state, r.log + Stamp(round, first.events));
    assert SomeMalformed(next, c, [open]);
    assert SomeMalformed(r, c, calls);
    RaisesIffMalformed(r, c, calls);
  }
}
