/** What each ledger call does and when it fails, told by statuses, holders and free units alone. */
module LedgerEffects {
  import opened Order
  import opened Schemas
  import opened Ledger
  import opened LedgerFacts

  // ---------------------------------------------------------------- vocabulary

  /** The call fails with `LedgerError` and changes nothing. */
  ghost predicate Refused(s: State, st: Step) {
    st == Step(s, [], LedgerError)
  }

  /** Only claim `id` may be different, and it is as `cl`. */
  ghost predicate OnlyClaim(s: State, t: State, id: nat, cl: Claim) {
    t.claims == s.claims[id := cl]
  }

  /** The named have lost the unit they held under the claim, and nobody else's allocation is different. */
  ghost predicate Took(s: State, t: State, id: nat, named: set<Name>) {
    && (forall k :: k in t.allocs <==> k in s.allocs && !(s.allocs[k].claim == id && k.1 in named))
    && (forall k :: k in t.allocs ==> t.allocs[k] == s.allocs[k])
  }

  /** The named have a unit of `r` each, under the claim, and nobody else's allocation is different. */
  ghost predicate Gave(s: State, t: State, id: nat, r: Name, named: seq<Name>) {
    && r in s.resources
    && (forall k :: k in t.allocs <==> k in s.allocs || (k.0 == r && k.1 in named))
    && (forall k :: k in t.allocs ==> t.allocs[k] == if k.0 == r && k.1 in named then Alloc(id, s.resources[r].group) else s.allocs[k])
  }

  /** The person holds a unit of `r`, or of anything in its group. */
  ghost predicate Served(s: State, r: Name, b: Name) {
    (r, b) in s.allocs || (r in s.resources && s.resources[r].group.Some? && exists k :: k in s.allocs.Keys && k.1 == b && s.allocs[k].group == s.resources[r].group)
  }

  /** Units of `r` in use. */
  ghost function InUse(s: State, r: Name): nat {
    |set k | k in s.allocs.Keys && k.0 == r :: k.1|
  }

  /** There is a unit for each of the named, and none of them is served already. */
  ghost predicate Fits(s: State, r: Name, named: seq<Name>)
    requires r in s.resources
  {
    InUse(s, r) + |named| <= s.resources[r].capacity && forall b :: b in named ==> !Served(s, r, b)
  }

  /** The storage refuses: a unit for each, nothing else of the group held, but the resource has no group and is held already. */
  ghost predicate Violates(s: State, r: Name, named: seq<Name>)
    requires r in s.resources
  {
    InUse(s, r) + |named| <= s.resources[r].capacity && s.resources[r].group.None? && exists b :: b in named && (r, b) in s.allocs
  }

  // ---------------------------------------------------------------- allocation

  /** An attempt for people named once each succeeds exactly when they fit, and is refused by the storage exactly in that case. */
  lemma AttemptMeans(s: State, id: nat, r: Name, named: seq<Name>)
    requires Sound(s) && r in s.resources && NoDup(named)
    ensures var a := TryAllocate(s, id, r, s.resources[r].group, named);
            && (a.Allocated? <==> Fits(s, r, named)) && (a.Violation? <==> Violates(s, r, named))
            && (a.Allocated? ==> Gave(s, s.(allocs := a.allocs), id, r, named))
  {
    hide Sound, HeldInGroup, Served, InUse, Used, Free, Granting, Gave;
    UsedIs(s, r);
    forall b ensures Served(s, r, b) <==> (r, b) in s.allocs || (s.resources[r].group.Some? && HeldInGroup(s.allocs, s.resources[r].group.value, b)) {
      ServedIs(s, r, b);
    }
    if s.resources[r].group.Some? { HeldHere(s, r); }
    GrantingGives(s, id, r, named);
  }

  lemma GrantingGives(s: State, id: nat, r: Name, named: seq<Name>)
    requires r in s.resources
    ensures Gave(s, s.(allocs := Granting(s.allocs, id, r, s.resources[r].group, named)), id, r, named)
  {}

  lemma ServedIs(s: State, r: Name, b: Name)
    requires r in s.resources
    ensures Served(s, r, b) <==> (r, b) in s.allocs || (s.resources[r].group.Some? && HeldInGroup(s.allocs, s.resources[r].group.value, b))
  {}

  lemma HeldHere(s: State, r: Name)
    requires Sound(s) && r in s.resources && s.resources[r].group.Some?
    ensures forall b :: (r, b) in s.allocs ==> HeldInGroup(s.allocs, s.resources[r].group.value, b)
  {
    hide Within, Exclusive, Filed;
    forall b | (r, b) in s.allocs ensures HeldInGroup(s.allocs, s.resources[r].group.value, b) { assert (r, b) in s.allocs.Keys; }
  }

  lemma UsedIs(s: State, r: Name)
    requires r in s.resources
    ensures Free(s, r) == s.resources[r].capacity - InUse(s, r)
  {}

  // ---------------------------------------------------------------- filing a claim

  /** A claim is filed: granted whole when everybody fits, and blocked otherwise, with nothing allocated. */
  ghost predicate FiledAs(s: State, t: State, id: nat, p: Proposal, round: nat, m: Option<nat>) {
    && p.resource in s.resources && t.resources == s.resources
    && if Fits(s, p.resource, p.beneficiaries)
       then OnlyClaim(s, t, id, Claim(p, Granted, round, Some(round), m)) && Gave(s, t, id, p.resource, p.beneficiaries)
       else OnlyClaim(s, t, id, Claim(p, Blocked, round, None, m)) && t.allocs == s.allocs
  }

  /** Filing fails for an unknown resource, and is undone when the storage refuses. */
  lemma InsertFiles(s: State, id: nat, p: Proposal, round: nat, m: Option<nat>)
    requires Sound(s)
    ensures var st := InsertAndApply(s, id, p, round, m);
            if p.resource !in s.resources then Refused(s, st)
            else if Violates(s, p.resource, p.beneficiaries) then st == Step(s, [], IntegrityViolation)
            else st.out == Ok && FiledAs(s, st.state, id, p, round, m) && st.state.commits == s.commits && st.state.claimSeq == s.claimSeq
  {
    hide Sound, TryAllocate, Fits, Violates;
    if p.resource in s.resources { AttemptMeans(s, id, p.resource, p.beneficiaries); }
  }

  /** A plain claim takes the next number. */
  lemma SubmitFiles(s: State, p: Proposal, round: nat)
    requires Sound(s)
    ensures var st, id := SubmitPlain(s, p, round), s.claimSeq + 1;
            && st.state.claimSeq == id && st.state.commits == s.commits
            && (st.out == Ok <==> p.resource in s.resources && !Violates(s, p.resource, p.beneficiaries))
            && (st.out == Ok ==> FiledAs(s, st.state, id, p, round, None))
            && (st.out != Ok ==> st.state.claims == s.claims && st.state.allocs == s.allocs)
  {
    hide Sound, InsertAndApply, Fits, Violates, Gave;
    var s1 := s.(claimSeq := s.claimSeq + 1);
    NextNumberSound(s);
    InsertFiles(s1, s.claimSeq + 1, p, round, None);
    SameFits(s, s1, p);
  }

  lemma NextNumberSound(s: State)
    requires Sound(s)
    ensures Sound(s.(claimSeq := s.claimSeq + 1))
  {
    SameTablesSound(s, s.(claimSeq := s.claimSeq + 1));
    hide Backed, Within, Exclusive;
  }

  lemma SameFits(s: State, t: State, p: Proposal)
    requires t.allocs == s.allocs && t.resources == s.resources
    ensures p.resource in s.resources ==> (Fits(t, p.resource, p.beneficiaries) <==> Fits(s, p.resource, p.beneficiaries))
                                           && (Violates(t, p.resource, p.beneficiaries) <==> Violates(s, p.resource, p.beneficiaries))
    ensures forall u, id :: Gave(t, u, id, p.resource, p.beneficiaries) <==> Gave(s, u, id, p.resource, p.beneficiaries)
  {}

  // ---------------------------------------------------------------- opening a commitment

  /** The commitment is the agent's own and has not been opened. */
  ghost predicate OwnUnopened(s: State, cid: nat, agent: Name) {
    cid in s.commits && s.commits[cid].agent == agent && !s.commits[cid].revealed
  }

  /** Claim and nonce re-derive the digest that was committed. */
  ghost predicate Opens(s: State, c: Crypto, cid: nat, p: Proposal, nonce: Bytes) {
    cid in s.commits && |nonce| == NONCE_BYTES && c.hash(c.claim(p) + nonce) == s.commits[cid].digest
  }

  /**
   * Opening: refused unless the commitment is the agent's own and unopened; recorded as rejected, and nothing filed, when
   * claim and nonce do not re-derive the digest; otherwise the claim is filed under the next number, for that commitment.
   */
  lemma RevealOpensOwn(s: State, c: Crypto, cid: nat, p: Proposal, nonce: Bytes, round: nat)
    requires Sound(s)
    ensures var st := Reveal(s, c, cid, p, nonce, round);
            && (!OwnUnopened(s, cid, p.agent) ==> Refused(s, st))
            && (OwnUnopened(s, cid, p.agent) && !Opens(s, c, cid, p, nonce) ==>
                  st.out == Ok && st.state == s.(commits := s.commits[cid := s.commits[cid].(revealed := true, ok := Some(false), nonce := Some(nonce))]))
            && (OwnUnopened(s, cid, p.agent) && Opens(s, c, cid, p, nonce) ==>
                  && st.state.claimSeq == s.claimSeq + 1
                  && st.state.commits == s.commits[cid := s.commits[cid].(revealed := true, ok := Some(true), nonce := Some(nonce), claim := Some(s.claimSeq + 1))]
                  && (st.out == Ok <==> p.resource in s.resources && !Violates(s, p.resource, p.beneficiaries))
                  && (st.out == Ok ==> FiledAs(s, st.state, s.claimSeq + 1, p, round, Some(cid)))
                  && (st.out != Ok ==> st.state.claims == s.claims && st.state.allocs == s.allocs))
  {
    hide Sound, InsertAndApply, Fits, Violates, Gave;
    if OwnUnopened(s, cid, p.agent) && Opens(s, c, cid, p, nonce) {
      var s1 := AcceptReveal(s, cid, nonce);
      AcceptedSound(s, cid, nonce);
      InsertFiles(s1, s.claimSeq + 1, p, round, Some(cid));
      SameFits(s, s1, p);
    }
  }

  lemma AcceptedSound(s: State, cid: nat, nonce: Bytes)
    requires Sound(s) && cid in s.commits
    ensures Sound(AcceptReveal(s, cid, nonce))
  {
    SameTablesSound(s, AcceptReveal(s, cid, nonce));
    hide Backed, Within, Exclusive;
  }

  // ---------------------------------------------------------------- giving up, taking back, voiding

  /** Each of the named holds something under the claim, and none is named twice. */
  ghost predicate AllHold(s: State, id: nat, bens: Option<seq<Name>>) {
    bens.Some? ==> NoDup(bens.value) && forall b :: b in bens.value ==> exists k :: k in s.allocs.Keys && k.1 == b && s.allocs[k].claim == id
  }

  /** Those named; all the holders when nobody is. */
  ghost function Meant(s: State, id: nat, bens: Option<seq<Name>>): set<Name> {
    if bens.Some? then Elems(bens.value) else Holders(s.allocs, id)
  }

  /** Units are taken back from the named, and the claim has status `emptied` when nobody is left. */
  ghost predicate TookBack(s: State, t: State, id: nat, named: set<Name>, emptied: Status, round: nat)
    requires id in s.claims
  {
    && Took(s, t, id, named) && t.resources == s.resources && t.commits == s.commits && t.claimSeq == s.claimSeq && t.commitSeq == s.commitSeq
    && t.claims == if Holders(s.allocs, id) <= named then s.claims[id := s.claims[id].(status := emptied, resolved := Some(round))] else s.claims
  }

  lemma TakesBack(s: State, id: nat, bens: Option<seq<Name>>, emptied: Status, round: nat)
    requires Sound(s) && id in s.claims
    ensures var st := TakeBack(s, id, Targets(s, id, bens), emptied, round);
            if AllHold(s, id, bens) then st.out == Ok && TookBack(s, st.state, id, Meant(s, id, bens), emptied, round) else Refused(s, st)
  {
    hide *;
    if AllHold(s, id, bens) { TakesBackHeld(s, id, bens, emptied, round); } else { TakesNothing(s, id, bens, emptied, round); }
  }

  lemma TakesBackHeld(s: State, id: nat, bens: Option<seq<Name>>, emptied: Status, round: nat)
    requires Sound(s) && id in s.claims && AllHold(s, id, bens)
    ensures var st := TakeBack(s, id, Targets(s, id, bens), emptied, round); st.out == Ok && TookBack(s, st.state, id, Meant(s, id, bens), emptied, round)
  {
    hide Sound, NoDup, DeallocEvents, Holders, HolderList, Targets, Meant, AllHold, Deallocate, Took;
    var r, targets := s.claims[id].proposal.resource, Targets(s, id, bens);
    TargetsMean(s, id, bens);
    TargetsHold(s, id, bens);
    CellsTaken(s, id, targets);
    var a := Deallocate(s.allocs, id, r, targets).value;
    TookLeaves(s, a, id, Meant(s, id, bens));
  }

  /** What deallocating units held under the claim leaves. */
  lemma CellsTaken(s: State, id: nat, targets: seq<Name>)
    requires Sound(s) && id in s.claims && NoDup(targets)
    requires forall b :: b in targets ==> (s.claims[id].proposal.resource, b) in s.allocs && s.allocs[(s.claims[id].proposal.resource, b)].claim == id
    ensures var d := Deallocate(s.allocs, id, s.claims[id].proposal.resource, targets); d.Some? && Took(s, s.(allocs := d.value), id, Elems(targets))
  {
    hide Sound, NoDup;
    HoldsHere(s, id);
    var r := s.claims[id].proposal.resource;
    assert Deallocate(s.allocs, id, r, targets) == Some(s.allocs - set b | b in targets :: (r, b));
  }

  lemma TookLeaves(s: State, a: Allocs, id: nat, named: set<Name>)
    requires Took(s, s.(allocs := a), id, named)
    ensures Holders(a, id) == {} <==> Holders(s.allocs, id) <= named
    ensures forall t: State :: t.allocs == a ==> Took(s, t, id, named)
  {
    LeftOver(s, a, id, named);
    hide Holders;
  }

  lemma TargetsHold(s: State, id: nat, bens: Option<seq<Name>>)
    requires Sound(s) && id in s.claims && AllHold(s, id, bens)
    ensures var (r, targets) := (s.claims[id].proposal.resource, Targets(s, id, bens));
            NoDup(targets) && forall b :: b in targets ==> (r, b) in s.allocs && s.allocs[(r, b)].claim == id
  {
    hide Sound, NoDup;
    TargetsMean(s, id, bens);
    forall b | b in Targets(s, id, bens) ensures (s.claims[id].proposal.resource, b) in s.allocs && s.allocs[(s.claims[id].proposal.resource, b)].claim == id {
      HolderHolds(s, id, b);
    }
  }

  lemma TakesNothing(s: State, id: nat, bens: Option<seq<Name>>, emptied: Status, round: nat)
    requires id in s.claims && !AllHold(s, id, bens)
    ensures Refused(s, TakeBack(s, id, Targets(s, id, bens), emptied, round))
  {
    hide NoDup;
    if NoDup(bens.value) {
      var b :| b in bens.value && !exists k :: k in s.allocs.Keys && k.1 == b && s.allocs[k].claim == id;
      NotHere(s, id, s.claims[id].proposal.resource, b);
    }
    hide Holders, HolderList;
  }

  lemma TargetsMean(s: State, id: nat, bens: Option<seq<Name>>)
    ensures bens.None? ==> NoDup(Targets(s, id, bens)) && forall b :: b in Targets(s, id, bens) <==> b in Holders(s.allocs, id)
    ensures Elems(Targets(s, id, bens)) == Meant(s, id, bens)
  {}

  lemma HoldsHere(s: State, id: nat)
    requires Sound(s) && id in s.claims
    ensures forall k :: k in s.allocs && s.allocs[k].claim == id ==> k == (s.claims[id].proposal.resource, k.1)
  {
    hide Within, Exclusive, Filed;
  }

  lemma HolderHolds(s: State, id: nat, b: Name)
    requires Sound(s) && id in s.claims && exists k :: k in s.allocs.Keys && k.1 == b && s.allocs[k].claim == id
    ensures (s.claims[id].proposal.resource, b) in s.allocs && s.allocs[(s.claims[id].proposal.resource, b)].claim == id
  {
    HoldsHere(s, id);
    hide Sound;
    var k :| k in s.allocs.Keys && k.1 == b && s.allocs[k].claim == id;
    assert k == (s.claims[id].proposal.resource, b);
  }

  lemma NotHere(s: State, id: nat, r: Name, b: Name)
    requires !exists k :: k in s.allocs.Keys && k.1 == b && s.allocs[k].claim == id
    ensures !((r, b) in s.allocs.Keys && s.allocs[(r, b)].claim == id)
  {}

  lemma LeftOver(s: State, a: Allocs, id: nat, named: set<Name>)
    requires forall k :: k in a <==> k in s.allocs && !(s.allocs[k].claim == id && k.1 in named)
    requires forall k :: k in a ==> a[k] == s.allocs[k]
    ensures Holders(a, id) == {} <==> Holders(s.allocs, id) <= named
  {
    forall b | b in Holders(a, id) ensures b in Holders(s.allocs, id) && b !in named {
      var k :| k in a.Keys && a[k].claim == id && k.1 == b;
      assert k in s.allocs.Keys;
    }
    forall b | b in Holders(s.allocs, id) && b !in named ensures b in Holders(a, id) {
      var k :| k in s.allocs.Keys && s.allocs[k].claim == id && k.1 == b;
      assert k in a.Keys;
    }
    hide Holders;
  }

  /**
   * The owner of a granted claim gives up what it names, all of it when nothing is named: accepted exactly when each of
   * the named holds something under it and none is named twice.
   */
  lemma ReleaseGivesUp(s: State, agent: Name, id: nat, bens: Option<seq<Name>>, round: nat)
    requires Sound(s)
    ensures var st := Release(s, agent, id, bens, round);
            if id in s.claims && s.claims[id].proposal.agent == agent && s.claims[id].status == Granted && AllHold(s, id, bens)
            then st.out == Ok && TookBack(s, st.state, id, Meant(s, id, bens), Released, round)
            else Refused(s, st)
  {
    hide Sound, TakeBack, Targets, AllHold, TookBack, Meant;
    if id in s.claims { TakesBack(s, id, bens, Released, round); }
  }

  /** The owner of a blocked claim withdraws it. */
  lemma WithdrawEnds(s: State, agent: Name, id: nat, round: nat)
    ensures var st := Withdraw(s, agent, id, round);
            if id in s.claims && s.claims[id].proposal.agent == agent && s.claims[id].status == Blocked
            then st.out == Ok && st.state == s.(claims := s.claims[id := s.claims[id].(status := Withdrawn, resolved := Some(round))])
            else Refused(s, st)
  {}

  /** Voiding leaves voided, revoked and released claims alone; any other known claim is voided and loses all it holds. */
  lemma VoidEnds(s: State, id: nat, round: nat)
    requires Sound(s)
    ensures var st := VoidClaim(s, id, round);
            if id !in s.claims then Refused(s, st)
            else if s.claims[id].status in {Voided, Revoked, Released} then st == Step(s, [], Ok)
            else && st.out == Ok && Took(s, st.state, id, Holders(s.allocs, id)) && st.state.resources == s.resources && st.state.commits == s.commits
                 && st.state.claims == s.claims[id := s.claims[id].(status := Voided, resolved := Some(round))]
  {
    if id in s.claims && s.claims[id].status !in {Voided, Revoked, Released} {
      if s.claims[id].status == Granted && Holders(s.allocs, id) != {} { VoidTakes(s, id, round); } else { NothingHeld(s, id); }
    }
    hide Sound, Deallocate, Holders, HolderList;
  }

  lemma NothingHeld(s: State, id: nat)
    requires Sound(s) && id in s.claims && (s.claims[id].status != Granted || Holders(s.allocs, id) == {})
    ensures Took(s, s, id, Holders(s.allocs, id))
  {
    hide Within, Exclusive, Filed;
    forall k | k in s.allocs && s.allocs[k].claim == id ensures k.1 in Holders(s.allocs, id) { assert k in s.allocs.Keys; }
  }

  lemma WhenNobodyIsNamed(s: State, id: nat)
    ensures Targets(s, id, None) == HolderList(s.allocs, id) && AllHold(s, id, None) && Meant(s, id, None) == Holders(s.allocs, id)
  {}

  lemma VoidTakes(s: State, id: nat, round: nat)
    requires Sound(s) && id in s.claims && s.claims[id].status == Granted && Holders(s.allocs, id) != {}
    ensures var st := VoidClaim(s, id, round);
            && st.out == Ok && Took(s, st.state, id, Holders(s.allocs, id)) && st.state.resources == s.resources && st.state.commits == s.commits
            && st.state.claims == s.claims[id := s.claims[id].(status := Voided, resolved := Some(round))]
  {
    hide Sound, NoDup, DeallocEvents, Holders, HolderList, Deallocate, Took, AllHold;
    var targets := HolderList(s.allocs, id);
    WhenNobodyIsNamed(s, id);
    TargetsMean(s, id, None);
    TargetsHold(s, id, None);
    CellsTaken(s, id, targets);
    TookLeaves(s, Deallocate(s.allocs, id, s.claims[id].proposal.resource, targets).value, id, Holders(s.allocs, id));
  }

  // ---------------------------------------------------------------- rulings

  /** A revoke is accepted exactly for a granted claim whose named people all hold something under it. */
  lemma RevokeTakes(s: State, op: RulingOp, ruling: nat, round: nat)
    requires Sound(s) && op.op == Revoke
    ensures var st := RuleOp(s, op, ruling, round);
            if op.claim in s.claims && s.claims[op.claim].status == Granted && AllHold(s, op.claim, op.beneficiaries)
            then st.out == Ok && TookBack(s, st.state, op.claim, Meant(s, op.claim, op.beneficiaries), Revoked, round)
            else Refused(s, st)
  {
    hide Sound, TakeBack, Targets, AllHold, TookBack, Meant, RuleGrant, VoidClaim;
    if op.claim in s.claims { TakesBack(s, op.claim, op.beneficiaries, Revoked, round); }
  }

  /** Whom a grant is for: the claim's people unless it names others. */
  function GrantedTo(s: State, op: RulingOp): seq<Name>
    requires op.claim in s.claims
  {
    if op.beneficiaries.Some? then op.beneficiaries.value else s.claims[op.claim].proposal.beneficiaries
  }

  /** A grant, to people named once, is accepted exactly for a blocked claim whose people fit. */
  lemma GrantGives(s: State, op: RulingOp, ruling: nat, round: nat)
    requires Sound(s) && op.op == Grant && (op.claim in s.claims ==> NoDup(GrantedTo(s, op)))
    ensures var st := RuleOp(s, op, ruling, round);
            if op.claim !in s.claims || s.claims[op.claim].status != Blocked then Refused(s, st)
            else var r := s.claims[op.claim].proposal.resource;
                 && r in s.resources
                 && (st.out == Ok <==> Fits(s, r, GrantedTo(s, op))) && (st.out == IntegrityViolation <==> Violates(s, r, GrantedTo(s, op)))
                 && (st.out != Ok ==> st.state == s)
                 && (st.out == Ok ==> Gave(s, st.state, op.claim, r, GrantedTo(s, op)) && st.state.resources == s.resources
                                      && st.state.claims == s.claims[op.claim := s.claims[op.claim].(status := Granted, resolved := Some(round))])
  {
    hide Backed, Within, Exclusive, TakeBack, VoidClaim, Fits, Violates, NoDup, TryAllocate;
    if op.claim in s.claims { AttemptMeans(s, op.claim, s.claims[op.claim].proposal.resource, GrantedTo(s, op)); }
  }

  /** A void by ruling does what voiding does. */
  lemma VoidByRuling(s: State, op: RulingOp, ruling: nat, round: nat)
    requires op.op == Void
    ensures RuleOp(s, op, ruling, round).state == VoidClaim(s, op.claim, round).state && RuleOp(s, op, ruling, round).out == VoidClaim(s, op.claim, round).out
  {
    hide Deallocate, Holders, HolderList;
  }

  // ---------------------------------------------------------------- resources and commitments

  /** A resource is registered once, with a capacity that is not negative. */
  lemma RegisterAdds(s: State, id: Name, capacity: int, group: Option<Name>)
    ensures var st := Register(s, id, capacity, group);
            if capacity < 0 || id in s.resources then Refused(s, st)
            else st.out == Ok && st.state == s.(resources := s.resources[id := Resource(capacity, group)])
  {}

  /** A digest is stored, unopened, under a number not used before. */
  lemma CommitStores(s: State, agent: Name, digest: Bytes, round: nat)
    requires Sound(s)
    ensures var st, id := CommitBid(s, agent, digest, round), s.commitSeq + 1;
            && st.out == Ok && id !in s.commits
            && st.state == s.(commitSeq := id, commits := s.commits[id := Sealed(agent, digest, round, false, None, None, None)])
  {
    hide Backed, Within, Exclusive;
  }
}
