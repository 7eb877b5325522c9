/** What every ledger operation keeps, whether it succeeds, raises or rolls back. */
module LedgerFacts {
  import opened Order
  import opened Schemas
  import opened Ledger
  import opened Books

  /** Each allocation is of a registered resource, under a granted claim on that very resource. */
  ghost predicate Backed(s: State) {
    forall k :: k in s.allocs ==>
      && k.0 in s.resources && s.allocs[k].group == s.resources[k.0].group
      && s.allocs[k].claim in s.claims
      && s.claims[s.allocs[k].claim].proposal.resource == k.0
      && s.claims[s.allocs[k].claim].status == Granted
  }

  /** No resource is over capacity. */
  ghost predicate Within(s: State) {
    forall r :: r in s.resources ==> Used(s.allocs, r) <= s.resources[r].capacity
  }

  predicate SameUnit(a: Allocs, j: Cell, k: Cell)
    requires j in a && k in a
  {
    j.1 == k.1 && a[j].group.Some? && a[j].group == a[k].group
  }

  /** No beneficiary holds two allocations in one non-null group. */
  ghost predicate Exclusive(s: State) {
    forall j, k :: j in s.allocs && k in s.allocs && SameUnit(s.allocs, j, k) ==> j == k
  }

  /** Ids are handed out in order, and a stored claim is on a registered resource. */
  ghost predicate Filed(s: State) {
    && (forall i :: i in s.claims ==> i <= s.claimSeq && s.claims[i].proposal.resource in s.resources)
    && (forall m :: m in s.commits ==> m <= s.commitSeq)
  }

  ghost predicate Sound(s: State) {
    Backed(s) && Within(s) && Exclusive(s) && Filed(s)
  }

  /** Reopening a sound ledger leaves it sound, with the same tables, and no number is given out twice. */
  lemma ReopenedSound(s: State)
    requires Sound(s)
    ensures var t := Reopened(s);
            && Sound(t) && t == s.(claimSeq := t.claimSeq, commitSeq := t.commitSeq)
            && t.claimSeq + 1 !in t.claims && t.commitSeq + 1 !in t.commits
  {
    SameTablesSound(s, Reopened(s));
    hide Backed, Within, Exclusive;
  }

  lemma SameTablesSound(s: State, t: State)
    requires Backed(s) && Within(s) && Exclusive(s) && t.resources == s.resources && t.allocs == s.allocs && t.claims == s.claims
    ensures Backed(t) && Within(t) && Exclusive(t)
  {
    hide Used, SameUnit;
  }

  // ---------------------------------------------------------------- lifecycle

  predicate Terminal(x: Status) {
    x in {Revoked, Released, Voided, Withdrawn}
  }

  /** The statuses a claim can move to, over any number of steps. */
  predicate Leads(x: Status, y: Status) {
    match x
    case Blocked => true
    case Granted => y in {Granted, Revoked, Released, Voided}
    case Withdrawn => y in {Withdrawn, Voided}
    case _ => y == x
  }

  ghost predicate Evolves(s: State, t: State) {
    && s.resources.Keys <= t.resources.Keys && s.claims.Keys <= t.claims.Keys && s.commits.Keys <= t.commits.Keys
    && (forall r :: r in s.resources ==> t.resources[r] == s.resources[r])
    && (forall i :: i in s.claims ==>
          t.claims[i].proposal == s.claims[i].proposal && Leads(s.claims[i].status, t.claims[i].status))
    && (forall m :: m in s.commits ==> t.commits[m].digest == s.commits[m].digest)
    && s.claimSeq <= t.claimSeq && s.commitSeq <= t.commitSeq
  }

  lemma EvolvesTrans(s: State, t: State, u: State)
    requires Evolves(s, t) && Evolves(t, u)
    ensures Evolves(s, u)
  {}

  /** Allocations may change freely; one claim may be filed or moved on. */
  lemma EvolvesClaim(s: State, a: Allocs, id: nat, cl: Claim)
    requires id in s.claims ==> cl.proposal == s.claims[id].proposal && Leads(s.claims[id].status, cl.status)
    ensures Evolves(s, s.(allocs := a)) && Evolves(s, s.(allocs := a, claims := s.claims[id := cl]))
  {}

  /** Only granted claims hold anything, so a claim that has ended holds nothing. */
  lemma EndedHoldsNothing(s: State, id: nat)
    requires Sound(s) && id in s.claims && s.claims[id].status != Granted
    ensures Holders(s.allocs, id) == {}
  {}

  // ---------------------------------------------------------------- one step

  /** A step keeps the ledger sound, moves claims forward only, and logs exactly what it did. */
  ghost predicate Good(s: State, c: Crypto, st: Step, round: nat) {
    && Sound(st.state) && Evolves(s, st.state)
    && ReadAll(AccountsOf(s), Stamp(round, st.events)) == AccountsOf(st.state)
    && forall e :: e in st.events ==> Fair(c, AccountsOf(st.state).digests, e)
  }

  /** A failed call with nothing written. */
  lemma GoodErr(s: State, c: Crypto, st: Step, round: nat)
    requires Sound(s) && st.state == s && st.events == []
    ensures Good(s, c, st, round)
  {
    assert Stamp(round, []) == [];
  }

  /** Appending silent events to a good step. */
  lemma GoodAppend(s: State, c: Crypto, st: Step, e: Event, round: nat)
    requires Good(s, c, st, round) && Silent(e) && Fair(c, AccountsOf(st.state).digests, e)
    ensures Good(s, c, st.(events := st.events + [e]), round)
  {
    StampConcat(round, st.events, [e]);
    ReadConcat(AccountsOf(s), Stamp(round, st.events), Stamp(round, [e]));
    ReadSilent(AccountsOf(st.state), Stamp(round, [e]));
  }

  lemma GoodPrepend(s: State, c: Crypto, t: State, st: Step, e: Event, round: nat)
    requires Evolves(s, t) && AccountsOf(t) == AccountsOf(s) && Good(t, c, st, round)
    requires Silent(e) && Fair(c, AccountsOf(st.state).digests, e)
    ensures Good(s, c, Prepend([e], st), round)
  {
    StampConcat(round, [e], st.events);
    ReadConcat(AccountsOf(s), Stamp(round, [e]), Stamp(round, st.events));
    ReadSilent(AccountsOf(s), Stamp(round, [e]));
    EvolvesTrans(s, t, st.state);
  }

  /** A step that leaves allocations, resources and digests alone and writes one silent line. */
  lemma GoodQuiet(s: State, c: Crypto, t: State, e: Event, out: Outcome, round: nat)
    requires Sound(t) && Evolves(s, t) && AccountsOf(t) == AccountsOf(s) && Silent(e) && Fair(c, AccountsOf(t).digests, e)
    ensures Good(s, c, Step(t, [e], out), round)
  {
    ReadSilent(AccountsOf(s), Stamp(round, [e]));
  }

  // ---------------------------------------------------------------- allocation

  lemma GrantedOn(a: Allocs, id: nat, r: Name, g: Option<Name>, bens: seq<Name>, r2: Name)
    ensures On(Granting(a, id, r, g, bens).Keys, r2) == On(a.Keys, r2) + if r2 == r then Elems(bens) else {}
  {
    var n := Granting(a, id, r, g, bens);
    forall b ensures (r2, b) in n.Keys <==> (r2, b) in a.Keys || (r2 == r && b in bens) {}
    hide Granting;
    OnHas(n.Keys, r2);
    OnHas(a.Keys, r2);
    hide On;
  }

  lemma OnHas(cells: set<Cell>, r: Name)
    ensures forall b :: b in On(cells, r) <==> (r, b) in cells
  {}

  lemma GrantingUsed(a: Allocs, id: nat, r: Name, g: Option<Name>, bens: seq<Name>, r2: Name)
    requires NoDup(bens) && forall b :: b in bens ==> (r, b) !in a
    ensures Used(Granting(a, id, r, g, bens), r2) == Used(a, r2) + if r2 == r then |bens| else 0
  {
    hide Granting, On;
    GrantedOn(a, id, r, g, bens, r2);
    if r2 == r {
      NoDupCard(bens);
      OnHas(a.Keys, r);
      assert On(a.Keys, r) !! Elems(bens);
    }
  }

  lemma AllocateExclusive(s: State, id: nat, r: Name, g: Option<Name>, bens: seq<Name>)
    requires Exclusive(s) && (g.Some? ==> forall b :: b in bens ==> !HeldInGroup(s.allocs, g.value, b))
    ensures Exclusive(s.(allocs := Granting(s.allocs, id, r, g, bens)))
  {
    var a := Granting(s.allocs, id, r, g, bens);
    forall j, k | j in a && k in a && SameUnit(a, j, k) ensures j == k {
      var new_j, new_k := j.0 == r && j.1 in bens, k.0 == r && k.1 in bens;
      if !new_j && !new_k { assert SameUnit(s.allocs, j, k); }
      if new_j && !new_k { assert !HeldInGroup(s.allocs, g.value, j.1); }
      if new_k && !new_j { assert !HeldInGroup(s.allocs, g.value, k.1); }
    }
  }

  /** The allocation `TryAllocate` makes under claim `id`, which is or becomes `cl`. */
  function Placed(s: State, id: nat, bens: seq<Name>, cl: Claim): State
    requires cl.proposal.resource in s.resources
  {
    var r := cl.proposal.resource;
    s.(allocs := Granting(s.allocs, id, r, s.resources[r].group, bens), claims := s.claims[id := cl])
  }

  ghost predicate Placeable(s: State, id: nat, bens: seq<Name>, cl: Claim) {
    && cl.status == Granted && cl.proposal.resource in s.resources && id <= s.claimSeq
    && (id in s.claims ==> s.claims[id].proposal == cl.proposal && s.claims[id].status == Blocked)
    && TryAllocate(s, id, cl.proposal.resource, s.resources[cl.proposal.resource].group, bens).Allocated?
  }

  lemma PlacedWithin(s: State, id: nat, bens: seq<Name>, cl: Claim)
    requires Within(s) && Placeable(s, id, bens, cl)
    ensures Within(Placed(s, id, bens, cl))
  {
    var r := cl.proposal.resource;
    var t := Placed(s, id, bens, cl);
    forall r2 | r2 in t.resources ensures Used(t.allocs, r2) <= t.resources[r2].capacity {
      GrantingUsed(s.allocs, id, r, s.resources[r].group, bens, r2);
    }
  }

  lemma PlacedBacked(s: State, id: nat, bens: seq<Name>, cl: Claim)
    requires Backed(s) && Filed(s) && Placeable(s, id, bens, cl)
    ensures Backed(Placed(s, id, bens, cl)) && Filed(Placed(s, id, bens, cl))
  {
    hide TryAllocate;
  }

  /** A successful allocation keeps the ledger sound and is told by its `alloc` lines. */
  lemma PlacedGood(s: State, c: Crypto, id: nat, bens: seq<Name>, cl: Claim, round: nat)
    requires Sound(s) && Placeable(s, id, bens, cl)
    ensures Good(s, c, Step(Placed(s, id, bens, cl), AllocEvents(id, cl.proposal.resource, bens), Ok), round)
  {
    var r := cl.proposal.resource;
    var g := s.resources[r].group;
    var t := Placed(s, id, bens, cl);
    assert Sound(t) by {
      PlacedWithin(s, id, bens, cl);
      PlacedBacked(s, id, bens, cl);
      AllocateExclusive(s, id, r, g, bens);
      hide Within, Backed, Filed;
    }
    hide Sound;
    EvolvesClaim(s, t.allocs, id, cl);
    AllocateRead(s, t, id, r, g, bens, round);
  }

  lemma AllocateRead(s: State, t: State, id: nat, r: Name, g: Option<Name>, bens: seq<Name>, round: nat)
    requires t.allocs == Granting(s.allocs, id, r, g, bens) && t.resources == s.resources && t.commits == s.commits
    ensures ReadAll(AccountsOf(s), Stamp(round, AllocEvents(id, r, bens))) == AccountsOf(t)
  {
    ReadAllocs(AccountsOf(s), round, id, r, bens);
    assert t.allocs.Keys == s.allocs.Keys + set x | x in bens :: (r, x);
  }

  lemma InsertGood(s: State, c: Crypto, id: nat, p: Proposal, round: nat, m: Option<nat>)
    requires Sound(s) && id !in s.claims && id <= s.claimSeq
    ensures Good(s, c, InsertAndApply(s, id, p, round, m), round)
  {
    var st := InsertAndApply(s, id, p, round, m);
    hide Sound, Good;
    if st.out != Ok {
      GoodErr(s, c, st, round);
    } else if TryAllocate(s, id, p.resource, s.resources[p.resource].group, p.beneficiaries).Allocated? {
      var cl := Claim(p, Granted, round, Some(round), m);
      PlacedGood(s, c, id, p.beneficiaries, cl, round);
      GoodPrepend(s, c, s, Step(st.state, AllocEvents(id, p.resource, p.beneficiaries), Ok),
                  ClaimGranted(id, p.agent, p.resource, p.beneficiaries), round);
    } else {
      BlockedSound(s, id, Claim(p, Blocked, round, None, m));
      EvolvesClaim(s, s.allocs, id, Claim(p, Blocked, round, None, m));
      GoodQuiet(s, c, st.state, st.events[0], Ok, round);
    }
  }

  lemma BlockedSound(s: State, id: nat, cl: Claim)
    requires Sound(s) && id !in s.claims && id <= s.claimSeq && cl.proposal.resource in s.resources
    ensures Sound(s.(claims := s.claims[id := cl]))
  {}

  // ---------------------------------------------------------------- deallocation

  function Cells(r: Name, bens: seq<Name>): set<Cell> {
    set b | b in bens :: (r, b)
  }

  lemma ShrinkSound(s: State, cells: set<Cell>)
    requires Sound(s)
    ensures Sound(s.(allocs := s.allocs - cells))
  {
    var t := s.(allocs := s.allocs - cells);
    forall r | r in t.resources ensures Used(t.allocs, r) <= t.resources[r].capacity {
      CardMono(On(t.allocs.Keys, r), On(s.allocs.Keys, r));
    }
    forall j, k | j in t.allocs && k in t.allocs && SameUnit(t.allocs, j, k) ensures j == k {
      assert SameUnit(s.allocs, j, k);
    }
  }

  lemma StatusSound(s: State, id: nat, status: Status, round: nat)
    requires Sound(s) && id in s.claims && (status == Granted || Holders(s.allocs, id) == {})
    ensures Sound(SetStatus(s, id, status, round))
  {
    var t := SetStatus(s, id, status, round);
    forall k | k in t.allocs ensures t.claims[t.allocs[k].claim].status == Granted {
      if s.allocs[k].claim == id { assert k.1 in Holders(s.allocs, id); }
    }
  }

  /** Cells go, possibly with a change of status: what the log says of it. */
  lemma ShrinkGood(s: State, c: Crypto, id: nat, r: Name, bens: seq<Name>, t: State, round: nat)
    requires Sound(t) && Evolves(s, t) && t.resources == s.resources && t.commits == s.commits
    requires t.allocs == s.allocs - Cells(r, bens)
    ensures Good(s, c, Step(t, DeallocEvents(id, r, bens), Ok), round)
  {
    ReadDeallocs(AccountsOf(s), round, id, r, bens);
    assert t.allocs.Keys == s.allocs.Keys - Cells(r, bens);
  }

  lemma TakeBackGood(s: State, c: Crypto, id: nat, targets: seq<Name>, emptied: Status, round: nat)
    requires Sound(s) && id in s.claims && Leads(s.claims[id].status, emptied)
    ensures Good(s, c, TakeBack(s, id, targets, emptied, round), round)
  {
    hide Sound, Good;
    var st := TakeBack(s, id, targets, emptied, round);
    var r := s.claims[id].proposal.resource;
    if st.out != Ok {
      GoodErr(s, c, st, round);
    } else {
      var t := s.(allocs := s.allocs - Cells(r, targets));
      ShrinkSound(s, Cells(r, targets));
      if Holders(t.allocs, id) == {} { StatusSound(t, id, emptied, round); }
      EvolvesClaim(s, t.allocs, id, s.claims[id].(status := emptied, resolved := Some(round)));
      hide Evolves;
      ShrinkGood(s, c, id, r, targets, st.state, round);
    }
  }

  lemma ReleaseGood(s: State, c: Crypto, agent: Name, id: nat, bens: Option<seq<Name>>, round: nat)
    requires Sound(s)
    ensures Good(s, c, Release(s, agent, id, bens, round), round)
  {
    var st := Release(s, agent, id, bens, round);
    if id !in s.claims || s.claims[id].proposal.agent != agent || s.claims[id].status != Granted {
      GoodErr(s, c, st, round);
    } else {
      var targets := Targets(s, id, bens);
      TakeBackGood(s, c, id, targets, Released, round);
      var tb := TakeBack(s, id, targets, Released, round);
      hide Good, TakeBack;
      if tb.out == Ok { GoodAppend(s, c, tb, ReleaseEvent(id, agent, targets), round); }
    }
  }

  /** Under a sound ledger a claim's own holders can always be taken back. */
  lemma OwnHolders(s: State, id: nat)
    requires Sound(s) && id in s.claims
    ensures var r := s.claims[id].proposal.resource;
            && Deallocate(s.allocs, id, r, HolderList(s.allocs, id)).Some?
            && Holders(s.allocs - Cells(r, HolderList(s.allocs, id)), id) == {}
  {
    var r := s.claims[id].proposal.resource;
    var l := HolderList(s.allocs, id);
    forall b | b in l ensures (r, b) in s.allocs && s.allocs[(r, b)].claim == id {
      assert b in Holders(s.allocs, id);
    }
    forall k | k in s.allocs && s.allocs[k].claim == id ensures k in Cells(r, l) {
      assert k == (r, k.1) && k.1 in Holders(s.allocs, id);
    }
  }

  lemma VoidGood(s: State, c: Crypto, id: nat, round: nat)
    requires Sound(s)
    ensures Good(s, c, VoidClaim(s, id, round), round)
    ensures id in s.claims ==> VoidClaim(s, id, round).out == Ok && Terminal(VoidClaim(s, id, round).state.claims[id].status)
  {
    hide Sound, Good, Evolves;
    var st := VoidClaim(s, id, round);
    if id !in s.claims || s.claims[id].status in {Voided, Revoked, Released} {
      GoodErr(s, c, st, round);
    } else {
      EvolvesClaim(s, st.state.allocs, id, s.claims[id].(status := Voided, resolved := Some(round)));
      OwnHolders(s, id);
      if s.claims[id].status == Granted && Holders(s.allocs, id) != {} {
        VoidHeld(s, c, id, round);
      } else {
        if s.claims[id].status != Granted { EndedHoldsNothing(s, id); }
        StatusSound(s, id, Voided, round);
        GoodQuiet(s, c, st.state, VoidEvent(id), Ok, round);
      }
    }
  }

  lemma VoidHeld(s: State, c: Crypto, id: nat, round: nat)
    requires Sound(s) && id in s.claims && s.claims[id].status == Granted && Holders(s.allocs, id) != {}
    ensures Good(s, c, VoidClaim(s, id, round), round) && VoidClaim(s, id, round).out == Ok
  {
    hide Sound, Good, Evolves;
    var st := VoidClaim(s, id, round);
    var r, l := s.claims[id].proposal.resource, HolderList(s.allocs, id);
    OwnHolders(s, id);
    EvolvesClaim(s, st.state.allocs, id, s.claims[id].(status := Voided, resolved := Some(round)));
    ShrinkSound(s, Cells(r, l));
    StatusSound(s.(allocs := s.allocs - Cells(r, l)), id, Voided, round);
    ShrinkGood(s, c, id, r, l, st.state, round);
    GoodAppend(s, c, Step(st.state, DeallocEvents(id, r, l), Ok), VoidEvent(id), round);
  }

  lemma WithdrawGood(s: State, c: Crypto, agent: Name, id: nat, round: nat)
    requires Sound(s)
    ensures Good(s, c, Withdraw(s, agent, id, round), round)
  {
    hide Sound, Good;
    var st := Withdraw(s, agent, id, round);
    if st.out != Ok {
      GoodErr(s, c, st, round);
    } else {
      EvolvesClaim(s, s.allocs, id, s.claims[id].(status := Withdrawn, resolved := Some(round)));
      EndedHoldsNothing(s, id);
      StatusSound(s, id, Withdrawn, round);
      GoodQuiet(s, c, st.state, st.events[0], Ok, round);
    }
  }

  lemma RuleGrantGood(s: State, c: Crypto, id: nat, bens: Option<seq<Name>>, round: nat)
    requires Sound(s) && id in s.claims
    ensures Good(s, c, RuleGrant(s, id, bens, round), round)
  {
    var st := RuleGrant(s, id, bens, round);
    assert id <= s.claimSeq;
    hide Sound, Good;
    if st.out != Ok {
      GoodErr(s, c, st, round);
    } else {
      var targets := if bens.Some? then bens.value else s.claims[id].proposal.beneficiaries;
      PlacedGood(s, c, id, targets, s.claims[id].(status := Granted, resolved := Some(round)), round);
    }
  }

  lemma RuleOpGood(s: State, c: Crypto, op: RulingOp, ruling: nat, round: nat)
    requires Sound(s)
    ensures Good(s, c, RuleOp(s, op, ruling, round), round)
  {
    var st := RuleOp(s, op, ruling, round);
    if op.claim !in s.claims || (op.op == Revoke && s.claims[op.claim].status != Granted) {
      GoodErr(s, c, st, round);
    } else {
      var inner: Step;
      match op.op {
        case Revoke =>
          inner := TakeBack(s, op.claim, Targets(s, op.claim, op.beneficiaries), Revoked, round);
          TakeBackGood(s, c, op.claim, Targets(s, op.claim, op.beneficiaries), Revoked, round);
        case Grant =>
          inner := RuleGrant(s, op.claim, op.beneficiaries, round);
          RuleGrantGood(s, c, op.claim, op.beneficiaries, round);
        case Void =>
          inner := VoidClaim(s, op.claim, round);
          VoidGood(s, c, op.claim, round);
      }
      assert st == Append(inner, [RulingOpEvent(ruling, op)]);
      hide Good, TakeBack, RuleGrant, VoidClaim;
      if inner.out == Ok { GoodAppend(s, c, inner, RulingOpEvent(ruling, op), round); }
    }
  }

  // ---------------------------------------------------------------- bids, registration

  lemma RegisterSound(s: State, id: Name, capacity: nat, group: Option<Name>)
    requires Sound(s) && id !in s.resources
    ensures Sound(s.(resources := s.resources[id := Resource(capacity, group)]))
  {
    assert On(s.allocs.Keys, id) == {};
  }

  lemma RegisterGood(s: State, c: Crypto, id: Name, capacity: int, group: Option<Name>, round: nat)
    requires Sound(s)
    ensures Good(s, c, Register(s, id, capacity, group), round)
  {
    hide Sound;
    var st := Register(s, id, capacity, group);
    if st.out != Ok {
      GoodErr(s, c, st, round);
    } else {
      RegisterSound(s, id, capacity, group);
      ReadOne(AccountsOf(s), Stamped(round, st.events[0]));
      assert Stamp(round, st.events) == [Stamped(round, st.events[0])];
    }
  }

  lemma CommitSound(s: State, agent: Name, digest: Bytes, round: nat)
    requires Sound(s)
    ensures Sound(CommitBid(s, agent, digest, round).state) && Evolves(s, CommitBid(s, agent, digest, round).state)
  {}

  lemma CommitGood(s: State, c: Crypto, agent: Name, digest: Bytes, round: nat)
    requires Sound(s)
    ensures Good(s, c, CommitBid(s, agent, digest, round), round)
  {
    hide Sound, Evolves;
    CommitSound(s, agent, digest, round);
    var st := CommitBid(s, agent, digest, round);
    ReadOne(AccountsOf(s), Stamped(round, st.events[0]));
    assert Stamp(round, st.events) == [Stamped(round, st.events[0])];
    assert AccountsOf(st.state).digests == AccountsOf(s).digests[s.commitSeq + 1 := digest];
  }

  lemma CountUpSound(s: State)
    requires Sound(s)
    ensures var t := s.(claimSeq := s.claimSeq + 1); Sound(t) && Evolves(s, t) && t.claimSeq !in t.claims
  {}

  lemma SubmitGood(s: State, c: Crypto, p: Proposal, round: nat)
    requires Sound(s)
    ensures Good(s, c, SubmitPlain(s, p, round), round)
  {
    var id := s.claimSeq + 1;
    var t := s.(claimSeq := id);
    hide Sound, Good, InsertAndApply, Evolves;
    CountUpSound(s);
    InsertGood(t, c, id, p, round, None);
    GoodPrepend(s, c, t, InsertAndApply(t, id, p, round, None), ClaimPlain(id, p.agent, p), round);
  }

  lemma AcceptSound(s: State, cid: nat, nonce: Bytes)
    requires Sound(s) && cid in s.commits
    ensures var t := AcceptReveal(s, cid, nonce);
            && Sound(t) && Evolves(s, t) && AccountsOf(t) == AccountsOf(s)
            && t.claimSeq == s.claimSeq + 1 && t.claimSeq !in t.claims
  {
    assert AccountsOf(AcceptReveal(s, cid, nonce)).digests == AccountsOf(s).digests;
  }

  lemma RejectSound(s: State, cid: nat, p: Proposal, nonce: Bytes)
    requires Sound(s) && cid in s.commits
    ensures var t := RejectReveal(s, cid, p, nonce).state; Sound(t) && Evolves(s, t) && AccountsOf(t) == AccountsOf(s)
  {
    hide Used, HeldInGroup;
    assert AccountsOf(RejectReveal(s, cid, p, nonce).state).digests == AccountsOf(s).digests;
  }

  lemma InsertKeepsDigests(s: State, id: nat, p: Proposal, round: nat, m: Option<nat>)
    ensures InsertAndApply(s, id, p, round, m).state.commits == s.commits
  {}

  lemma RevealGood(s: State, c: Crypto, cid: nat, p: Proposal, nonce: Bytes, round: nat)
    requires Sound(s)
    ensures Good(s, c, Reveal(s, c, cid, p, nonce, round), round)
  {
    hide Sound, Good, InsertAndApply, Evolves, AcceptReveal;
    var st := Reveal(s, c, cid, p, nonce, round);
    if !Revealable(s, cid, p) {
      GoodErr(s, c, st, round);
    } else if !VerifyCommitment(c, p, nonce, s.commits[cid].digest) {
      RejectSound(s, cid, p, nonce);
      GoodQuiet(s, c, st.state, st.events[0], Ok, round);
    } else {
      var t := AcceptReveal(s, cid, nonce);
      var id := s.claimSeq + 1;
      AcceptSound(s, cid, nonce);
      InsertGood(t, c, id, p, round, Some(cid));
      InsertKeepsDigests(t, id, p, round, Some(cid));
      GoodPrepend(s, c, t, InsertAndApply(t, id, p, round, Some(cid)), RevealOk(cid, id, p.agent, p, nonce), round);
    }
  }

  /** Every call, with any arguments, is a good step. */
  lemma DoGood(s: State, c: Crypto, op: Op, round: nat)
    requires Sound(s)
    ensures Good(s, c, Do(s, c, op, round), round)
  {
    hide Sound, Good, Register, CommitBid, Reveal, SubmitPlain, Release, Withdraw, VoidClaim, RuleOp;
    match op
    case DoRegister(id, capacity, group) => RegisterGood(s, c, id, capacity, group, round);
    case DoCommit(agent, digest) => CommitGood(s, c, agent, digest, round);
    case DoReveal(cid, p, nonce) => RevealGood(s, c, cid, p, nonce, round);
    case DoSubmit(p) => SubmitGood(s, c, p, round);
    case DoRelease(agent, id, bens) => ReleaseGood(s, c, agent, id, bens, round);
    case DoWithdraw(agent, id) => WithdrawGood(s, c, agent, id, round);
    case DoVoid(id) => VoidGood(s, c, id, round);
    case DoRule(op, ruling) => RuleOpGood(s, c, op, ruling, round);
  }

  // ---------------------------------------------------------------- whole runs of calls

  datatype Call = Call(op: Op, round: nat)

  datatype Run = Run(state: State, log: Log)

  /** A ledger that has received `calls`, and the log it has written; calls that raise are calls like any other. */
  function Play(r: Run, c: Crypto, calls: seq<Call>): Run
    decreases |calls|
  {
    if calls == [] then r
    else
      var st := Do(r.state, c, calls[0].op, calls[0].round);
      Play(Run(st.state, r.log + Stamp(calls[0].round, st.events)), c, calls[1..])
  }

  lemma TellsStep(s: State, c: Crypto, log: Log, st: Step, round: nat)
    requires Tells(c, log, s) && Good(s, c, st, round)
    ensures Tells(c, log + Stamp(round, st.events), st.state)
  {
    ReadConcat(BLANK, log, Stamp(round, st.events));
    assert forall e :: e in log + Stamp(round, st.events) ==> e in log || e.event in st.events;
    var d, d2 := AccountsOf(s).digests, AccountsOf(st.state).digests;
    assert forall m :: m in d ==> m in d2 && d2[m] == d[m];
  }

  lemma {:induction false} PlayGood(r: Run, c: Crypto, calls: seq<Call>)
    requires Sound(r.state) && Tells(c, r.log, r.state)
    ensures var q := Play(r, c, calls); Sound(q.state) && Tells(c, q.log, q.state) && Evolves(r.state, q.state)
    decreases |calls|
  {
    if calls != [] {
      var st := Do(r.state, c, calls[0].op, calls[0].round);
      DoGood(r.state, c, calls[0].op, calls[0].round);
      TellsStep(r.state, c, r.log, st, calls[0].round);
      var r1 := Run(st.state, r.log + Stamp(calls[0].round, st.events));
      hide Do, Tells;
      PlayGood(r1, c, calls[1..]);
      EvolvesTrans(r.state, r1.state, Play(r1, c, calls[1..]).state);
    }
  }

  /** I1 and I5 in every reachable state: capacity, exclusivity, and the log replays to the manifest. */
  lemma LedgerInvariants(c: Crypto, calls: seq<Call>)
    ensures var q := Play(Run(EMPTY, []), c, calls);
            && (forall r :: r in q.state.resources ==> Used(q.state.allocs, r) <= q.state.resources[r].capacity)
            && (forall j, k :: j in q.state.allocs && k in q.state.allocs && SameUnit(q.state.allocs, j, k) ==> j == k)
            && (forall k :: k in q.state.allocs ==> k.0 in q.state.resources && q.state.allocs[k].group == q.state.resources[k.0].group)
            && ManifestOf(ReadAll(BLANK, q.log).held) == ManifestNow(q.state)
            && ReadAll(BLANK, q.log).resources == q.state.resources
            && (forall e :: e in q.log ==> Fair(c, ReadAll(BLANK, q.log).digests, e.event))
  {
    assert Sound(EMPTY);
    assert AccountsOf(EMPTY) == BLANK;
    PlayGood(Run(EMPTY, []), c, calls);
  }

  lemma {:induction false} PlayConcat(r: Run, c: Crypto, c1: seq<Call>, c2: seq<Call>)
    ensures Play(r, c, c1 + c2) == Play(Play(r, c, c1), c, c2)
    decreases |c1|
  {
    if c1 == [] {
      assert c1 + c2 == c2;
    } else {
      assert (c1 + c2)[1..] == c1[1..] + c2;
      var st := Do(r.state, c, c1[0].op, c1[0].round);
      PlayConcat(Run(st.state, r.log + Stamp(c1[0].round, st.events)), c, c1[1..], c2);
    }
  }

  lemma EmptyGood(c: Crypto)
    ensures Sound(EMPTY) && Tells(c, [], EMPTY)
  {
    assert AccountsOf(EMPTY) == BLANK;
  }

  /** Claim lifecycle between any two moments of any run. */
  lemma ClaimLifecycle(c: Crypto, before: seq<Call>, after: seq<Call>, id: nat)
    requires id in Play(Run(EMPTY, []), c, before).state.claims
    ensures var s, t := Play(Run(EMPTY, []), c, before).state, Play(Run(EMPTY, []), c, before + after).state;
            && id in t.claims && t.claims[id].proposal == s.claims[id].proposal
            && Leads(s.claims[id].status, t.claims[id].status)
            && (Holders(t.allocs, id) != {} ==> t.claims[id].status == Granted)
            && (Terminal(s.claims[id].status) ==> Terminal(t.claims[id].status) && Holders(t.allocs, id) == {})
            && (s.claims[id].status == Granted ==> t.claims[id].status != Blocked)
  {
    hide Play, Tells, Do, AccountsOf, Sound;
    EmptyGood(c);
    var r := Play(Run(EMPTY, []), c, before);
    PlayConcat(Run(EMPTY, []), c, before, after);
    PlayGood(Run(EMPTY, []), c, before);
    PlayGood(r, c, after);
    var t := Play(r, c, after).state;
    if t.claims[id].status != Granted { EndedHoldsNothing(t, id); }
  }
}
