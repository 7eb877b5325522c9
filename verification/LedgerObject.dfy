/** The claim ledger object: tables updated in place inside transactions, every change appended to the log. */
module LedgerObject {
  import opened Order
  import opened Schemas
  import opened Ledger
  import opened ChainLog
  import LF = LedgerFacts

  class ClaimLedger {
    const crypto: Crypto
    const log: ChainLog
    var resources: map<Name, Resource>
    var allocs: Allocs
    var claims: map<nat, Claim>
    var commits: map<nat, Sealed>
    var claimSeq: nat
    var commitSeq: nat

    /** The tables as a value. */
    function Value(): State
      reads this
    {
      State(resources, allocs, claims, commits, claimSeq, commitSeq)
    }

    /** The log is open: it has its genesis entry. */
    ghost predicate Valid()
      reads this, log
    {
      log.Valid() && log.Lines() != []
    }

    /** Opens a ledger over the stored tables, which are empty at first. */
    constructor (crypto: Crypto, log: ChainLog, stored: State)
      requires log.Valid() && log.Lines() != []
      ensures Valid() && Value() == Reopened(stored) && this.log == log && this.crypto == crypto
    {
      this.crypto, this.log := crypto, log;
      resources, allocs, claims, commits := stored.resources, stored.allocs, stored.claims, stored.commits;
      claimSeq, commitSeq := Highest(stored.claims.Keys), Highest(stored.commits.Keys);
    }

    method Emit(e: Event, round: nat)
      requires Valid()
      modifies log
      ensures Valid() && log.Lines() == old(log.Lines()) + Stamp(round, [e])
    {
      var ok := log.Append(e, round);
      assert Stamp(round, [e]) == [Stamped(round, e)];
    }

    method EmitAllocs(id: nat, r: Name, bens: seq<Name>, round: nat)
      requires Valid()
      modifies log
      ensures Valid() && log.Lines() == old(log.Lines()) + Stamp(round, AllocEvents(id, r, bens))
    {
      hide log.Valid, log.Lines, Stamp;
      for i := 0 to |bens|
        invariant Valid() && log.Lines() == old(log.Lines()) + Stamp(round, AllocEvents(id, r, bens[..i]))
      {
        Emit(AllocEvent(r, bens[i], id), round);
        assert AllocEvents(id, r, bens[..i+1]) == AllocEvents(id, r, bens[..i]) + [AllocEvent(r, bens[i], id)];
      }
      assert bens[..|bens|] == bens;
    }

    method EmitDeallocs(id: nat, r: Name, bens: seq<Name>, round: nat)
      requires Valid()
      modifies log
      ensures Valid() && log.Lines() == old(log.Lines()) + Stamp(round, DeallocEvents(id, r, bens))
    {
      hide log.Valid, log.Lines, Stamp;
      for i := 0 to |bens|
        invariant Valid() && log.Lines() == old(log.Lines()) + Stamp(round, DeallocEvents(id, r, bens[..i]))
      {
        Emit(DeallocEvent(r, bens[i], id), round);
        assert DeallocEvents(id, r, bens[..i+1]) == DeallocEvents(id, r, bens[..i]) + [DeallocEvent(r, bens[i], id)];
      }
      assert bens[..|bens|] == bens;
    }

    // ---------------------------------------------------------------- resources and bids

    method Register(id: Name, capacity: int, group: Option<Name>) returns (out: Outcome)
      requires Valid()
      modifies this, log
      ensures var st := Ledger.Register(old(Value()), id, capacity, group);
              Valid() && Value() == st.state && out == st.out && log.Lines() == old(log.Lines()) + Stamp(0, st.events)
    {
      hide log.Valid, log.Lines;
      if capacity < 0 || id in resources {
        NoStamps(0);
        return LedgerError;
      }
      resources := resources[id := Resource(capacity, group)];
      Emit(ResourceAdded(id, capacity, group), 0);
      out := Ok;
    }

    method Commit(agent: Name, digest: Bytes, round: nat) returns (id: nat)
      requires Valid()
      modifies this, log
      ensures var st := CommitBid(old(Value()), agent, digest, round);
              && Valid() && Value() == st.state && log.Lines() == old(log.Lines()) + Stamp(round, st.events)
              && id == old(commitSeq) + 1
    {
      commitSeq := commitSeq + 1;
      id := commitSeq;
      commits := commits[id := Sealed(agent, digest, round, false, None, None, None)];
      Emit(Event.Commit(id, agent, digest), round);
    }

    /** Seals a proposal with a drawn nonce of the right length. */
    method SealAndCommit(p: Proposal, nonce: Bytes, round: nat) returns (id: nat)
      requires Valid() && |nonce| == NONCE_BYTES
      modifies this, log
      ensures var st := CommitBid(old(Value()), p.agent, CommitmentDigest(crypto, p, nonce).value, round);
              && Valid() && Value() == st.state && log.Lines() == old(log.Lines()) + Stamp(round, st.events)
              && id == old(commitSeq) + 1
    {
      id := Commit(p.agent, CommitmentDigest(crypto, p, nonce).value, round);
    }

    // ---------------------------------------------------------------- allocation

    /**
     * The two pre-checks, then one insert per beneficiary, each guarded by the capacity trigger, the primary
     * key and the group index. On `Violation` some rows may be in; the caller's transaction takes them out.
     */
    method TryAllocate(id: nat, r: Name, g: Option<Name>, bens: seq<Name>) returns (result: Attempt)
      requires r in resources
      modifies this`allocs
      ensures result == Ledger.TryAllocate(old(Value()), id, r, g, bens)
      ensures result.Allocated? ==> allocs == result.allocs
      ensures result.NoRoom? || result.AlreadyHeld? ==> allocs == old(allocs)
    {
      hide Used, HeldInGroup, Granting, NoDup;
      ghost var s := Value();
      if resources[r].capacity - Used(allocs, r) < |bens| { return NoRoom; }
      if g.Some? {
        for i := 0 to |bens|
          invariant forall b :: b in bens[..i] ==> !HeldInGroup(allocs, g.value, b)
        {
          assert bens[..i+1] == bens[..i] + [bens[i]];
          assert bens[i] in bens;
          if HeldInGroup(allocs, g.value, bens[i]) { return AlreadyHeld; }
        }
        assert bens[..|bens|] == bens;
      }
      NothingGranted(allocs, id, r, g, bens);
      for i := 0 to |bens|
        invariant Clear(s.allocs, r, bens[..i]) && allocs == Granting(s.allocs, id, r, g, bens[..i])
      {
        hide Clear;
        var b := bens[i];
        OnlyTheKeyGuards(s, id, r, g, bens, i);
        if Used(allocs, r) >= resources[r].capacity || (r, b) in allocs || (g.Some? && HeldInGroup(allocs, g.value, b)) {
          NotClear(s.allocs, id, r, g, bens, i);
          return Violation;
        }
        ClearNext(s.allocs, id, r, g, bens, i);
        allocs := allocs[(r, b) := Alloc(id, g)];
      }
      assert bens[..|bens|] == bens;
      result := Allocated(allocs);
    }

    /** `_deallocate`: all targets or none. */
    method Deallocate(id: nat, r: Name, bens: seq<Name>, round: nat) returns (ok: bool)
      requires Valid()
      modifies this`allocs, log
      ensures var d := Ledger.Deallocate(old(allocs), id, r, bens);
              && Valid() && ok == d.Some?
              && allocs == (if ok then d.value else old(allocs))
              && log.Lines() == old(log.Lines()) + (if ok then Stamp(round, DeallocEvents(id, r, bens)) else [])
    {
      hide log.Valid, log.Lines, Stamp;
      var before := allocs;
      for i := 0 to |bens|
        invariant NoDup(bens[..i]) && (forall b :: b in bens[..i] ==> (r, b) in before && before[(r, b)].claim == id)
        invariant allocs == before - LF.Cells(r, bens[..i])
        invariant Valid() && log.Lines() == old(log.Lines())
      {
        var key := (r, bens[i]);
        DeleteOne(before, id, r, bens, i);
        if key !in allocs || allocs[key].claim != id {
          allocs := before;
          return false;
        }
        allocs := allocs - {key};
      }
      assert bens[..|bens|] == bens;
      EmitDeallocs(id, r, bens, round);
      ok := true;
    }

    method InsertAndApply(id: nat, p: Proposal, round: nat, commitment: Option<nat>) returns (out: Outcome)
      requires Valid()
      modifies this`allocs, this`claims, log
      ensures var st := Ledger.InsertAndApply(old(Value()), id, p, round, commitment);
              Valid() && Value() == st.state && out == st.out && log.Lines() == old(log.Lines()) + Stamp(round, st.events)
    {
      hide log.Valid, log.Lines, Stamp, Ledger.TryAllocate, AllocEvents, Ledger.InsertAndApply;
      InsertCases(Value(), id, p, round, commitment);
      if p.resource !in resources {
        NoStamps(round);
        return LedgerError;
      }
      var g := resources[p.resource].group;
      var claims0, allocs0 := claims, allocs;
      var attempt := TryAllocate(id, p.resource, g, p.beneficiaries);
      if attempt.Violation? {
        claims, allocs := claims0, allocs0;
        NoStamps(round);
        return IntegrityViolation;
      }
      out := Ok;
      if attempt.Allocated? {
        claims := claims[id := Claim(p, Granted, round, Some(round), commitment)];
        EmitGranted(id, p, round);
      } else {
        claims := claims[id := Claim(p, Blocked, round, None, commitment)];
        Emit(ClaimBlocked(id, p.agent, p.resource, |p.beneficiaries|), round);
      }
    }

    method EmitGranted(id: nat, p: Proposal, round: nat)
      requires Valid()
      modifies log
      ensures Valid() && log.Lines() == old(log.Lines()) + Stamp(round, [ClaimGranted(id, p.agent, p.resource, p.beneficiaries)] + AllocEvents(id, p.resource, p.beneficiaries))
    {
      hide log.Valid, log.Lines, Stamp, AllocEvents;
      Emit(ClaimGranted(id, p.agent, p.resource, p.beneficiaries), round);
      EmitAllocs(id, p.resource, p.beneficiaries, round);
      Stamps2(round, [ClaimGranted(id, p.agent, p.resource, p.beneficiaries)], AllocEvents(id, p.resource, p.beneficiaries));
    }

    /** Free units of a resource; an unknown resource is an error. */
    method FreeUnits(r: Name) returns (n: Option<int>)
      ensures n == if r in resources then Some(Free(Value(), r)) else None
    {
      n := if r in resources then Some(resources[r].capacity - Used(allocs, r)) else None;
    }

    // ---------------------------------------------------------------- claims

    method OpenBid(cid: nat, p: Proposal, nonce: Bytes, round: nat) returns (out: Outcome, rejected: bool)
      requires Valid()
      modifies this, log
      ensures var st := Reveal(old(Value()), crypto, cid, p, nonce, round);
              && Valid() && Value() == st.state && out == st.out && log.Lines() == old(log.Lines()) + Stamp(round, st.events)
              && (rejected <==> st.events != [] && st.events[0].RevealReject?)
    {
      hide log.Valid, log.Lines, Stamp, Ledger.InsertAndApply;
      rejected := false;
      if cid !in commits || commits[cid].revealed || commits[cid].agent != p.agent {
        NoStamps(round);
        return LedgerError, false;
      }
      var m := commits[cid];
      if !VerifyCommitment(crypto, p, nonce, m.digest) {
        commits := commits[cid := m.(revealed := true, ok := Some(false), nonce := Some(nonce))];
        Emit(RevealReject(cid, p.agent, p, nonce, m.digest), round);
        return Ok, true;
      }
      claimSeq := claimSeq + 1;
      var id := claimSeq;
      commits := commits[cid := m.(revealed := true, ok := Some(true), nonce := Some(nonce), claim := Some(id))];
      assert Value() == AcceptReveal(old(Value()), cid, nonce);
      Emit(RevealOk(cid, id, p.agent, p, nonce), round);
      ghost var inner := Ledger.InsertAndApply(Value(), id, p, round, Some(cid));
      out := InsertAndApply(id, p, round, Some(cid));
      Stamps2(round, [RevealOk(cid, id, p.agent, p, nonce)], inner.events);
    }

    method SubmitPlain(p: Proposal, round: nat) returns (out: Outcome)
      requires Valid()
      modifies this, log
      ensures var st := Ledger.SubmitPlain(old(Value()), p, round);
              Valid() && Value() == st.state && out == st.out && log.Lines() == old(log.Lines()) + Stamp(round, st.events)
    {
      hide log.Valid, log.Lines, Stamp, Ledger.InsertAndApply;
      claimSeq := claimSeq + 1;
      var id := claimSeq;
      Emit(ClaimPlain(id, p.agent, p), round);
      assert Value() == old(Value()).(claimSeq := id);
      ghost var inner := Ledger.InsertAndApply(Value(), id, p, round, None);
      out := InsertAndApply(id, p, round, None);
      Stamps2(round, [ClaimPlain(id, p.agent, p)], inner.events);
    }

    method UpdateStatus(id: nat, status: Status, round: nat)
      requires id in claims
      modifies this`claims
      ensures Value() == SetStatus(old(Value()), id, status, round)
    {
      claims := claims[id := claims[id].(status := status, resolved := Some(round))];
    }

    method TakeBack(id: nat, targets: seq<Name>, emptied: Status, round: nat) returns (ok: bool)
      requires Valid() && id in claims
      modifies this`allocs, this`claims, log
      ensures var st := Ledger.TakeBack(old(Value()), id, targets, emptied, round);
              && Valid() && Value() == st.state && ok == (st.out == Ok) && (st.out == Ok || st.out == LedgerError)
              && log.Lines() == old(log.Lines()) + Stamp(round, st.events)
    {
      hide log.Valid, log.Lines, Stamp, Ledger.Deallocate, DeallocEvents;
      ok := Deallocate(id, claims[id].proposal.resource, targets, round);
      if ok {
        if Holders(allocs, id) == {} { UpdateStatus(id, emptied, round); }
      } else {
        NoStamps(round);
      }
    }

    method Release(agent: Name, id: nat, bens: Option<seq<Name>>, round: nat) returns (out: Outcome)
      requires Valid()
      modifies this`allocs, this`claims, log
      ensures var st := Ledger.Release(old(Value()), agent, id, bens, round);
              Valid() && Value() == st.state && out == st.out && log.Lines() == old(log.Lines()) + Stamp(round, st.events)
    {
      hide log.Valid, log.Lines, Stamp, Ledger.TakeBack;
      if id !in claims || claims[id].proposal.agent != agent || claims[id].status != Granted {
        NoStamps(round);
        return LedgerError;
      }
      var targets := if bens.Some? then bens.value else HolderList(allocs, id);
      ghost var inner := Ledger.TakeBack(Value(), id, targets, Released, round);
      var ok := TakeBack(id, targets, Released, round);
      if !ok { return LedgerError; }
      Emit(ReleaseEvent(id, agent, targets), round);
      Stamps2(round, inner.events, [ReleaseEvent(id, agent, targets)]);
      out := Ok;
    }

    method Withdraw(agent: Name, id: nat, round: nat) returns (out: Outcome)
      requires Valid()
      modifies this`claims, log
      ensures var st := Ledger.Withdraw(old(Value()), agent, id, round);
              Valid() && Value() == st.state && out == st.out && log.Lines() == old(log.Lines()) + Stamp(round, st.events)
    {
      hide log.Valid, log.Lines, Stamp;
      if id !in claims || claims[id].proposal.agent != agent || claims[id].status != Blocked {
        NoStamps(round);
        return LedgerError;
      }
      UpdateStatus(id, Withdrawn, round);
      Emit(WithdrawEvent(id, agent), round);
      out := Ok;
    }

    method VoidClaim(id: nat, round: nat) returns (out: Outcome)
      requires Valid()
      modifies this`allocs, this`claims, log
      ensures var st := Ledger.VoidClaim(old(Value()), id, round);
              Valid() && Value() == st.state && out == st.out && log.Lines() == old(log.Lines()) + Stamp(round, st.events)
    {
      hide log.Valid, log.Lines, Stamp, Ledger.Deallocate, DeallocEvents, Holders, HolderList;
      if id !in claims {
        NoStamps(round);
        return LedgerError;
      }
      if claims[id].status in {Voided, Revoked, Released} {
        NoStamps(round);
        return Ok;
      }
      out := Ok;
      if claims[id].status == Granted && Holders(allocs, id) != {} {
        var r, l := claims[id].proposal.resource, HolderList(allocs, id);
        var ok := Deallocate(id, r, l, round);
        if !ok {
          NoStamps(round);
          return LedgerError;
        }
        ghost var lines := log.Lines();
        UpdateStatus(id, Voided, round);
        Emit(VoidEvent(id), round);
        Stamps2(round, DeallocEvents(id, r, l), [VoidEvent(id)]);
        assert lines + Stamp(round, [VoidEvent(id)]) == old(log.Lines()) + (Stamp(round, DeallocEvents(id, r, l)) + Stamp(round, [VoidEvent(id)]));
      } else {
        UpdateStatus(id, Voided, round);
        Emit(VoidEvent(id), round);
      }
    }

    method RuleGrant(id: nat, bens: Option<seq<Name>>, round: nat) returns (out: Outcome)
      requires Valid() && id in claims
      modifies this`allocs, this`claims, log
      ensures var st := Ledger.RuleGrant(old(Value()), id, bens, round);
              Valid() && Value() == st.state && out == st.out && log.Lines() == old(log.Lines()) + Stamp(round, st.events)
    {
      hide log.Valid, log.Lines, Stamp, Ledger.TryAllocate, AllocEvents;
      NoStamps(round);
      var p := claims[id].proposal;
      if claims[id].status != Blocked || p.resource !in resources { return LedgerError; }
      var targets := if bens.Some? then bens.value else p.beneficiaries;
      var allocs0 := allocs;
      var attempt := TryAllocate(id, p.resource, resources[p.resource].group, targets);
      match attempt
      case Violation =>
        allocs := allocs0;
        out := IntegrityViolation;
      case Allocated(_) =>
        UpdateStatus(id, Granted, round);
        EmitAllocs(id, p.resource, targets, round);
        out := Ok;
      case _ =>
        out := LedgerError;
    }

    method RuleOne(op: RulingOp, ruling: nat, round: nat) returns (out: Outcome)
      requires Valid()
      modifies this`allocs, this`claims, log
      ensures var st := RuleOp(old(Value()), op, ruling, round);
              Valid() && Value() == st.state && out == st.out && log.Lines() == old(log.Lines()) + Stamp(round, st.events)
    {
      hide log.Valid, log.Lines, Stamp, Ledger.TakeBack, Ledger.RuleGrant, Ledger.VoidClaim, Ledger.RuleOp;
      NoStamps(round);
      RuleCases(Value(), op, ruling, round);
      if op.claim !in claims { return LedgerError; }
      ghost var inner: Step;
      match op.op {
        case Revoke =>
          if claims[op.claim].status != Granted { return LedgerError; }
          var targets := if op.beneficiaries.Some? then op.beneficiaries.value else HolderList(allocs, op.claim);
          inner := Ledger.TakeBack(Value(), op.claim, targets, Revoked, round);
          var ok := TakeBack(op.claim, targets, Revoked, round);
          out := if ok then Ok else LedgerError;
        case Grant =>
          inner := Ledger.RuleGrant(Value(), op.claim, op.beneficiaries, round);
          out := RuleGrant(op.claim, op.beneficiaries, round);
        case Void =>
          inner := Ledger.VoidClaim(Value(), op.claim, round);
          out := VoidClaim(op.claim, round);
      }
      if out == Ok {
        Emit(RulingOpEvent(ruling, op), round);
        Stamps2(round, inner.events, [RulingOpEvent(ruling, op)]);
      }
    }

    /** `apply_ruling_ops`: in order; the first op that raises ends the call, and what was applied stays. */
    method ApplyRulingOps(ops: seq<RulingOp>, ruling: nat, round: nat) returns (out: Outcome)
      requires Valid()
      modifies this`allocs, this`claims, log
      ensures var st := RuleOps(old(Value()), ops, ruling, round);
              Valid() && Value() == st.state && out == st.out && log.Lines() == old(log.Lines()) + Stamp(round, st.events)
    {
      hide log.Valid, log.Lines, Stamp, RuleOp, RuleOps, Prepend;
      ghost var done: seq<Event> := [];
      out := Ok;
      NoStamps(round);
      RuleOpsStart(Value(), ops, ruling, round);
      for i := 0 to |ops|
        invariant Valid() && log.Lines() == old(log.Lines()) + Stamp(round, done)
        invariant RuleOps(old(Value()), ops, ruling, round) == Prepend(done, RuleOps(Value(), ops[i..], ruling, round))
        invariant out == Ok && resources == old(resources) && commits == old(commits) && claimSeq == old(claimSeq) && commitSeq == old(commitSeq)
      {
        ghost var st := RuleOp(Value(), ops[i], ruling, round);
        RuleOpsStep(Value(), ops, i, ruling, round, done);
        Stamps2(round, done, st.events);
        ghost var lines := log.Lines();
        assert lines + Stamp(round, st.events) == old(log.Lines()) + (Stamp(round, done) + Stamp(round, st.events));
        out := RuleOne(ops[i], ruling, round);
        done := done + st.events;
        if out != Ok { return; }
      }
      RuleOpsEnd(Value(), ops, ruling, round, done);
    }
  }

  // ---------------------------------------------------------------- helpers

  lemma NoStamps(round: nat)
    ensures Stamp(round, []) == []
  {}

  lemma Stamps2(round: nat, a: seq<Event>, b: seq<Event>)
    ensures Stamp(round, a + b) == Stamp(round, a) + Stamp(round, b)
  {}

  lemma RuleOpsStart(s: State, ops: seq<RulingOp>, ruling: nat, round: nat)
    ensures RuleOps(s, ops, ruling, round) == Prepend([], RuleOps(s, ops[0..], ruling, round))
  {
    assert ops[0..] == ops;
  }

  lemma RuleOpsStep(s: State, ops: seq<RulingOp>, i: nat, ruling: nat, round: nat, done: seq<Event>)
    requires i < |ops|
    ensures var st := RuleOp(s, ops[i], ruling, round);
            Prepend(done, RuleOps(s, ops[i..], ruling, round))
            == if st.out == Ok then Prepend(done + st.events, RuleOps(st.state, ops[i+1..], ruling, round))
               else Step(st.state, done + st.events, st.out)
  {
    hide RuleOp;
    var st := RuleOp(s, ops[i], ruling, round);
    assert ops[i..][0] == ops[i] && ops[i..][1..] == ops[i+1..];
    var rest := RuleOps(st.state, ops[i+1..], ruling, round);
    assert done + (st.events + rest.events) == (done + st.events) + rest.events;
  }

  lemma RuleOpsEnd(s: State, ops: seq<RulingOp>, ruling: nat, round: nat, done: seq<Event>)
    ensures Prepend(done, RuleOps(s, ops[|ops|..], ruling, round)) == Step(s, done, Ok)
  {
    assert done + [] == done;
  }

  lemma NothingGranted(a: Allocs, id: nat, r: Name, g: Option<Name>, bens: seq<Name>)
    ensures Clear(a, r, bens[..0]) && Granting(a, id, r, g, bens[..0]) == a
  {}

  /** Nothing among the first `i` is repeated or already in the table. */
  ghost predicate Clear(a: Allocs, r: Name, bens: seq<Name>) {
    NoDup(bens) && forall b :: b in bens ==> (r, b) !in a
  }

  lemma GrantOneMore(a: Allocs, id: nat, r: Name, g: Option<Name>, bens: seq<Name>, b: Name)
    ensures Granting(a, id, r, g, bens + [b]) == Granting(a, id, r, g, bens)[(r, b) := Alloc(id, g)]
  {
    var all, some := Granting(a, id, r, g, bens + [b]), Granting(a, id, r, g, bens);
    assert forall x :: x in bens + [b] <==> x in bens || x == b;
    forall k ensures k in all <==> k in some[(r, b) := Alloc(id, g)] {}
    forall k | k in all ensures all[k] == some[(r, b) := Alloc(id, g)][k] {}
  }

  lemma ClearNext(a: Allocs, id: nat, r: Name, g: Option<Name>, bens: seq<Name>, i: nat)
    requires i < |bens| && Clear(a, r, bens[..i]) && (r, bens[i]) !in Granting(a, id, r, g, bens[..i])
    ensures Clear(a, r, bens[..i+1])
    ensures Granting(a, id, r, g, bens[..i+1]) == Granting(a, id, r, g, bens[..i])[(r, bens[i]) := Alloc(id, g)]
  {
    assert bens[..i+1] == bens[..i] + [bens[i]];
    GrantOneMore(a, id, r, g, bens[..i], bens[i]);
    assert bens[i] !in bens[..i];
  }

  lemma NotClear(a: Allocs, id: nat, r: Name, g: Option<Name>, bens: seq<Name>, i: nat)
    requires i < |bens| && (r, bens[i]) in Granting(a, id, r, g, bens[..i])
    ensures !Clear(a, r, bens)
  {
    assert bens[i] in bens;
  }

  /** The pre-checks leave the primary key as the only guard that can still refuse an insert. */
  lemma OnlyTheKeyGuards(s: State, id: nat, r: Name, g: Option<Name>, bens: seq<Name>, i: nat)
    requires i < |bens| && r in s.resources && Free(s, r) >= |bens| && Clear(s.allocs, r, bens[..i])
    requires g.Some? ==> forall b :: b in bens ==> !HeldInGroup(s.allocs, g.value, b)
    ensures var a := Granting(s.allocs, id, r, g, bens[..i]);
            && Used(a, r) < s.resources[r].capacity
            && (g.Some? && HeldInGroup(a, g.value, bens[i]) ==> (r, bens[i]) in a)
  {
    LF.GrantingUsed(s.allocs, id, r, g, bens[..i], r);
    hide Used;
    assert bens[i] in bens;
  }

  /** The i-th delete finds its row exactly when it is held under the claim and not deleted already. */
  lemma DeleteOne(a: Allocs, id: nat, r: Name, bens: seq<Name>, i: nat)
    requires i < |bens| && NoDup(bens[..i]) && forall b :: b in bens[..i] ==> (r, b) in a && a[(r, b)].claim == id
    ensures var c := a - LF.Cells(r, bens[..i]);
            var found := (r, bens[i]) in c && c[(r, bens[i])].claim == id;
            && (!found ==> Ledger.Deallocate(a, id, r, bens) == None)
            && (found ==> NoDup(bens[..i+1]) && (forall b :: b in bens[..i+1] ==> (r, b) in a && a[(r, b)].claim == id)
                          && a - LF.Cells(r, bens[..i+1]) == c - {(r, bens[i])})
  {
    assert bens[..i+1] == bens[..i] + [bens[i]];
    assert bens[i] in bens;
  }

  /** The four ways an insert ends. */
  lemma InsertCases(s: State, id: nat, p: Proposal, round: nat, m: Option<nat>)
    ensures var st := Ledger.InsertAndApply(s, id, p, round, m);
            if p.resource !in s.resources then st == Err(s)
            else match Ledger.TryAllocate(s, id, p.resource, s.resources[p.resource].group, p.beneficiaries)
                 case Violation => st == Step(s, [], IntegrityViolation)
                 case Allocated(a) => st == Step(s.(allocs := a, claims := s.claims[id := Claim(p, Granted, round, Some(round), m)]),
                                                 [ClaimGranted(id, p.agent, p.resource, p.beneficiaries)] + AllocEvents(id, p.resource, p.beneficiaries), Ok)
                 case _ => st == Step(s.(claims := s.claims[id := Claim(p, Blocked, round, None, m)]), [ClaimBlocked(id, p.agent, p.resource, |p.beneficiaries|)], Ok)
  {
    hide Ledger.TryAllocate, AllocEvents;
  }

  /** How an op is carried out. */
  lemma RuleCases(s: State, op: RulingOp, ruling: nat, round: nat)
    ensures var (st, line) := (Ledger.RuleOp(s, op, ruling, round), [RulingOpEvent(ruling, op)]);
            if op.claim !in s.claims then st == Err(s)
            else match op.op
                 case Revoke => st == (if s.claims[op.claim].status != Granted then Err(s)
                                       else Append(Ledger.TakeBack(s, op.claim, Targets(s, op.claim, op.beneficiaries), Revoked, round), line))
                 case Grant => st == Append(Ledger.RuleGrant(s, op.claim, op.beneficiaries, round), line)
                 case Void => st == Append(Ledger.VoidClaim(s, op.claim, round), line)
  {
    hide Ledger.TakeBack, Ledger.RuleGrant, Ledger.VoidClaim;
  }
}
