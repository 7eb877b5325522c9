/** The claim ledger on values: its tables, and what each operation does to them and writes to the log. */
module Ledger {
  import opened Order
  import opened Schemas

  datatype Resource = Resource(capacity: nat, group: Option<Name>)

  datatype Alloc = Alloc(claim: nat, group: Option<Name>)

  datatype Claim =
    Claim(proposal: Proposal, status: Status, committed: nat, resolved: Option<nat>, commitment: Option<nat>)

  datatype Sealed =
    Sealed(agent: Name, digest: Bytes, round: nat, revealed: bool, ok: Option<bool>, nonce: Option<Bytes>, claim: Option<nat>)

  /** A row of the allocation table is keyed by (resource, beneficiary). */
  type Cell = (Name, Name)

  type Allocs = map<Cell, Alloc>

  /** The four tables and the two in-memory counters. */
  datatype State = State(
    resources: map<Name, Resource>,
    allocs: Allocs,
    claims: map<nat, Claim>,
    commits: map<nat, Sealed>,
    claimSeq: nat,
    commitSeq: nat)

  const EMPTY := State(map[], map[], map[], map[], 0, 0)

  /** What a ledger opened over stored tables starts from: the counters resume at the highest stored number. */
  function Reopened(s: State): State {
    s.(claimSeq := Highest(s.claims.Keys), commitSeq := Highest(s.commits.Keys))
  }

  /** How an operation ends: normally, by `LedgerError`, or by the storage's `IntegrityViolation`. */
  datatype Outcome = Ok | LedgerError | IntegrityViolation

  datatype Step = Step(state: State, events: seq<Event>, out: Outcome)

  function Err(s: State): Step { Step(s, [], LedgerError) }

  // ---------------------------------------------------------------- queries

  /** The beneficiaries of `r` among a set of allocated cells. */
  function On(cells: set<Cell>, r: Name): set<Name> {
    set k | k in cells && k.0 == r :: k.1
  }

  function Used(a: Allocs, r: Name): nat {
    |On(a.Keys, r)|
  }

  function Free(s: State, r: Name): int
    requires r in s.resources
  {
    s.resources[r].capacity - Used(s.allocs, r)
  }

  function Holders(a: Allocs, id: nat): set<Name> {
    set k | k in a.Keys && a[k].claim == id :: k.1
  }

  function SortedNames(s: set<Name>): (r: seq<Name>)
    ensures |r| == |s| && NoDup(r) && forall x :: x in r <==> x in s
  {
    NameOrder();
    SortedOf(s, NameLe)
  }

  function HolderList(a: Allocs, id: nat): seq<Name> {
    SortedNames(Holders(a, id))
  }

  predicate HeldInGroup(a: Allocs, g: Name, b: Name) {
    exists k :: k in a.Keys && k.1 == b && a[k].group == Some(g)
  }

  function IdsWith(s: State, status: Status): (r: seq<nat>)
    ensures forall c :: c in r <==> c in s.claims && s.claims[c].status == status
    ensures NoDup(r)
  {
    NatOrder();
    SortedOf((set c | c in s.claims && s.claims[c].status == status), NatLe)
  }

  function Resources(cells: set<Cell>): set<Name> {
    set k | k in cells :: k.0
  }

  function ManifestOf(cells: set<Cell>): (m: Manifest)
    ensures m.Keys == Resources(cells)
    ensures forall r, b :: r in m ==> (b in m[r] <==> (r, b) in cells)
    ensures forall r :: r in m ==> |m[r]| == |On(cells, r)|
  {
    map r | r in Resources(cells) :: SortedNames(On(cells, r))
  }

  /** Final allocation state: resource to sorted beneficiaries. */
  function ManifestNow(s: State): Manifest {
    ManifestOf(s.allocs.Keys)
  }

  // ---------------------------------------------------------------- allocation

  datatype Attempt = Allocated(allocs: Allocs) | NoRoom | AlreadyHeld | Violation

  function Granting(a: Allocs, id: nat, r: Name, g: Option<Name>, bens: seq<Name>): Allocs {
    a + map b | b in bens :: (r, b) := Alloc(id, g)
  }

  /** All-or-nothing: the two pre-checks, then the inserts, which the primary key can still refuse. */
  function TryAllocate(s: State, id: nat, r: Name, g: Option<Name>, bens: seq<Name>): Attempt
    requires r in s.resources
  {
    if Free(s, r) < |bens| then NoRoom
    else if g.Some? && exists b :: b in bens && HeldInGroup(s.allocs, g.value, b) then AlreadyHeld
    else if !NoDup(bens) || exists b :: b in bens && (r, b) in s.allocs then Violation
    else Allocated(Granting(s.allocs, id, r, g, bens))
  }

  /** `_deallocate`: every target must be held under this claim, and none twice. */
  function Deallocate(a: Allocs, id: nat, r: Name, bens: seq<Name>): Option<Allocs> {
    if NoDup(bens) && forall b :: b in bens ==> (r, b) in a && a[(r, b)].claim == id
    then Some(a - set b | b in bens :: (r, b))
    else None
  }

  function AllocEvents(id: nat, r: Name, bens: seq<Name>): (e: seq<Event>)
    ensures |e| == |bens| && forall i :: 0 <= i < |e| ==> e[i] == AllocEvent(r, bens[i], id)
  {
    seq(|bens|, i requires 0 <= i < |bens| => AllocEvent(r, bens[i], id))
  }

  function DeallocEvents(id: nat, r: Name, bens: seq<Name>): (e: seq<Event>)
    ensures |e| == |bens| && forall i :: 0 <= i < |e| ==> e[i] == DeallocEvent(r, bens[i], id)
  {
    seq(|bens|, i requires 0 <= i < |bens| => DeallocEvent(r, bens[i], id))
  }

  function SetStatus(s: State, id: nat, status: Status, round: nat): State
    requires id in s.claims
  {
    s.(claims := s.claims[id := s.claims[id].(status := status, resolved := Some(round))])
  }

  // ---------------------------------------------------------------- operations

  function Register(s: State, id: Name, capacity: int, group: Option<Name>): Step {
    if capacity < 0 || id in s.resources then Err(s)
    else Step(s.(resources := s.resources[id := Resource(capacity, group)]), [ResourceAdded(id, capacity, group)], Ok)
  }

  function CommitBid(s: State, agent: Name, digest: Bytes, round: nat): Step {
    var id := s.commitSeq + 1;
    Step(s.(commitSeq := id, commits := s.commits[id := Sealed(agent, digest, round, false, None, None, None)]),
         [Commit(id, agent, digest)], Ok)
  }

  function InsertAndApply(s: State, id: nat, p: Proposal, round: nat, commitment: Option<nat>): Step {
    if p.resource !in s.resources then Err(s)
    else
      var g := s.resources[p.resource].group;
      match TryAllocate(s, id, p.resource, g, p.beneficiaries)
      case Violation => Step(s, [], IntegrityViolation)
      case Allocated(a) =>
        Step(s.(allocs := a, claims := s.claims[id := Claim(p, Granted, round, Some(round), commitment)]),
             [ClaimGranted(id, p.agent, p.resource, p.beneficiaries)] + AllocEvents(id, p.resource, p.beneficiaries), Ok)
      case _ =>
        Step(s.(claims := s.claims[id := Claim(p, Blocked, round, None, commitment)]),
             [ClaimBlocked(id, p.agent, p.resource, |p.beneficiaries|)], Ok)
  }

  function Prepend(events: seq<Event>, st: Step): Step {
    st.(events := events + st.events)
  }

  function RejectReveal(s: State, cid: nat, p: Proposal, nonce: Bytes): Step
    requires cid in s.commits
  {
    var m := s.commits[cid];
    Step(s.(commits := s.commits[cid := m.(revealed := true, ok := Some(false), nonce := Some(nonce))]),
         [RevealReject(cid, p.agent, p, nonce, m.digest)], Ok)
  }

  /** The state once a matching reveal is recorded, before its claim is inserted. */
  function AcceptReveal(s: State, cid: nat, nonce: Bytes): State
    requires cid in s.commits
  {
    var id := s.claimSeq + 1;
    s.(claimSeq := id,
       commits := s.commits[cid := s.commits[cid].(revealed := true, ok := Some(true), nonce := Some(nonce), claim := Some(id))])
  }

  /** Whether `reveal` gets as far as checking the digest. */
  predicate Revealable(s: State, cid: nat, p: Proposal) {
    cid in s.commits && !s.commits[cid].revealed && s.commits[cid].agent == p.agent
  }

  function Reveal(s: State, c: Crypto, cid: nat, p: Proposal, nonce: Bytes, round: nat): Step {
    if !Revealable(s, cid, p) then Err(s)
    else if !VerifyCommitment(c, p, nonce, s.commits[cid].digest) then RejectReveal(s, cid, p, nonce)
    else
      var id := s.claimSeq + 1;
      Prepend([RevealOk(cid, id, p.agent, p, nonce)], InsertAndApply(AcceptReveal(s, cid, nonce), id, p, round, Some(cid)))
  }

  function SubmitPlain(s: State, p: Proposal, round: nat): Step {
    var id := s.claimSeq + 1;
    Prepend([ClaimPlain(id, p.agent, p)], InsertAndApply(s.(claimSeq := id), id, p, round, None))
  }

  /** Takes `targets` back from claim `id`; a claim left with no holder gets status `emptied`. */
  function TakeBack(s: State, id: nat, targets: seq<Name>, emptied: Status, round: nat): Step
    requires id in s.claims
  {
    var r := s.claims[id].proposal.resource;
    match Deallocate(s.allocs, id, r, targets)
    case None => Err(s)
    case Some(a) =>
      var t := s.(allocs := a);
      Step(if Holders(a, id) == {} then SetStatus(t, id, emptied, round) else t, DeallocEvents(id, r, targets), Ok)
  }

  function Append(st: Step, events: seq<Event>): Step {
    if st.out == Ok then st.(events := st.events + events) else st
  }

  function Targets(s: State, id: nat, bens: Option<seq<Name>>): seq<Name> {
    if bens.Some? then bens.value else HolderList(s.allocs, id)
  }

  function Release(s: State, agent: Name, id: nat, bens: Option<seq<Name>>, round: nat): Step {
    if id !in s.claims || s.claims[id].proposal.agent != agent || s.claims[id].status != Granted then Err(s)
    else
      var targets := Targets(s, id, bens);
      Append(TakeBack(s, id, targets, Released, round), [ReleaseEvent(id, agent, targets)])
  }

  function Withdraw(s: State, agent: Name, id: nat, round: nat): Step {
    if id !in s.claims || s.claims[id].proposal.agent != agent || s.claims[id].status != Blocked then Err(s)
    else Step(SetStatus(s, id, Withdrawn, round), [WithdrawEvent(id, agent)], Ok)
  }

  function VoidClaim(s: State, id: nat, round: nat): Step {
    if id !in s.claims then Err(s)
    else if s.claims[id].status in {Voided, Revoked, Released} then Step(s, [], Ok)
    else if s.claims[id].status == Granted && Holders(s.allocs, id) != {} then
      var r := s.claims[id].proposal.resource;
      match Deallocate(s.allocs, id, r, HolderList(s.allocs, id))
      case None => Err(s)
      case Some(a) =>
        Step(SetStatus(s.(allocs := a), id, Voided, round),
             DeallocEvents(id, r, HolderList(s.allocs, id)) + [VoidEvent(id)], Ok)
    else Step(SetStatus(s, id, Voided, round), [VoidEvent(id)], Ok)
  }

  function RuleGrant(s: State, id: nat, bens: Option<seq<Name>>, round: nat): Step
    requires id in s.claims
  {
    var p := s.claims[id].proposal;
    if s.claims[id].status != Blocked || p.resource !in s.resources then Err(s)
    else
      var targets := if bens.Some? then bens.value else p.beneficiaries;
      match TryAllocate(s, id, p.resource, s.resources[p.resource].group, targets)
      case Violation => Step(s, [], IntegrityViolation)
      case Allocated(a) =>
        Step(SetStatus(s.(allocs := a), id, Granted, round), AllocEvents(id, p.resource, targets), Ok)
      case _ => Err(s)
  }

  /** One binding op of a ruling. */
  function RuleOp(s: State, op: RulingOp, ruling: nat, round: nat): Step {
    if op.claim !in s.claims then Err(s)
    else
      Append(
        match op.op
        case Revoke =>
          if s.claims[op.claim].status != Granted then Err(s)
          else TakeBack(s, op.claim, Targets(s, op.claim, op.beneficiaries), Revoked, round)
        case Grant => RuleGrant(s, op.claim, op.beneficiaries, round)
        case Void => VoidClaim(s, op.claim, round),
        [RulingOpEvent(ruling, op)])
  }

  /** `apply_ruling_ops`: the ops in order, stopping at the first that raises; earlier ones stay. */
  function RuleOps(s: State, ops: seq<RulingOp>, ruling: nat, round: nat): Step
    decreases |ops|
  {
    if ops == [] then Step(s, [], Ok)
    else
      var st := RuleOp(s, ops[0], ruling, round);
      if st.out != Ok then st else Prepend(st.events, RuleOps(st.state, ops[1..], ruling, round))
  }

  // ---------------------------------------------------------------- the operations as one alphabet

  datatype Op =
    | DoRegister(id: Name, capacity: int, group: Option<Name>)
    | DoCommit(agent: Name, digest: Bytes)
    | DoReveal(commitment: nat, proposal: Proposal, nonce: Bytes)
    | DoSubmit(proposal: Proposal)
    | DoRelease(agent: Name, claim: nat, beneficiaries: Option<seq<Name>>)
    | DoWithdraw(agent: Name, claim: nat)
    | DoVoid(claim: nat)
    | DoRule(op: RulingOp, ruling: nat)

  /** Any ledger call, in any order, with any arguments. */
  function Do(s: State, c: Crypto, op: Op, round: nat): Step {
    match op
    case DoRegister(id, capacity, group) => Register(s, id, capacity, group)
    case DoCommit(agent, digest) => CommitBid(s, agent, digest, round)
    case DoReveal(cid, p, nonce) => Reveal(s, c, cid, p, nonce, round)
    case DoSubmit(p) => SubmitPlain(s, p, round)
    case DoRelease(agent, id, bens) => Release(s, agent, id, bens, round)
    case DoWithdraw(agent, id) => Withdraw(s, agent, id, round)
    case DoVoid(id) => VoidClaim(s, id, round)
    case DoRule(op, ruling) => RuleOp(s, op, ruling, round)
  }
}
