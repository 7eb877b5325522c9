/** The wire types of the society: claims, positions, rulings, deadlocks and log events. */
module Schemas {
  import opened Order

  type Name = string

  newtype byte = x: int | 0 <= x < 256

  type Bytes = seq<byte>

  datatype Option<+T> = None | Some(value: T)

  // ---------------------------------------------------------------- claims

  datatype ProposalFields =
    Proposal(agent: Name, resource: Name, beneficiaries: seq<Name>, basis: string, revocable: bool)

  /** A validated proposal: at least one beneficiary and none twice (`qty` is their number). */
  type Proposal = p: ProposalFields | p.beneficiaries != [] && NoDup(p.beneficiaries)
    witness Proposal("", "", [""], "", true)

  /** The statuses a stored claim can have. */
  datatype Status = Granted | Blocked | Revoked | Released | Voided | Withdrawn

  // ---------------------------------------------------------------- positions and rulings

  datatype Stance = Block | Support | Yield

  datatype Position = Position(agent: Name, stance: Stance, target: nat, release: Option<seq<Name>>)

  datatype OpKind = Revoke | Grant | Void

  datatype RulingOp = RulingOp(op: OpKind, claim: nat, beneficiaries: Option<seq<Name>>)

  predicate Whitespace(c: char) {
    var n := c as int;
    || 9 <= n <= 13 || 28 <= n <= 32 || n == 0x85 || n == 0xa0 || n == 0x1680 || 0x2000 <= n <= 0x200a
    || n == 0x2028 || n == 0x2029 || n == 0x202f || n == 0x205f || n == 0x3000
  }

  predicate Blank(s: string) {
    forall c :: c in s ==> Whitespace(c)
  }

  /** Some citation is more than white space. */
  predicate Cites(citations: seq<string>) {
    exists c :: c in citations && !Blank(c)
  }

  datatype RulingFields =
    Ruling(citations: seq<string>, ops: seq<RulingOp>, winners: seq<Name>, losers: seq<Name>)

  /** A validated ruling cites at least one source. */
  type Ruling = r: RulingFields | Cites(r.citations) witness CitingRuling()

  function CitingRuling(): (r: RulingFields)
    ensures Cites(r.citations)
  {
    assert 'c' in "c" && !Whitespace('c');
    assert "c" in ["c"];
    Ruling(["c"], [], [], [])
  }

  datatype SignedRuling = SignedRuling(id: nat, round: nat, body: RulingFields, hashes: map<string, Bytes>)

  datatype DeadlockKind = Cycle | Contested

  /** Detector deadlocks are numbered from 1; number 0 is the final `d-fiat`. */
  datatype Deadlock =
    Deadlock(id: nat, kind: DeadlockKind, round: nat, resources: seq<Name>, agents: seq<Name>, claims: seq<nat>)

  // ---------------------------------------------------------------- the log

  type Manifest = map<Name, seq<Name>>

  /** Log entry kinds with their bodies. */
  datatype Event =
    | Genesis(header: string)
    | ResourceAdded(id: Name, capacity: nat, group: Option<Name>)
    | Commit(commitment: nat, agent: Name, digest: Bytes)
    | RevealOk(commitment: nat, claim: nat, agent: Name, proposal: Proposal, nonce: Bytes)
    | RevealReject(commitment: nat, agent: Name, proposal: Proposal, nonce: Bytes, expected: Bytes)
    | ClaimPlain(claim: nat, agent: Name, proposal: Proposal)
    | ClaimGranted(claim: nat, agent: Name, resource: Name, beneficiaries: seq<Name>)
    | ClaimBlocked(claim: nat, agent: Name, resource: Name, qty: nat)
    | AllocEvent(resource: Name, beneficiary: Name, claim: nat)
    | DeallocEvent(resource: Name, beneficiary: Name, claim: nat)
    | ReleaseEvent(claim: nat, agent: Name, targets: seq<Name>)
    | RulingOpEvent(ruling: nat, op: RulingOp)
    | WithdrawEvent(claim: nat, agent: Name)
    | VoidEvent(claim: nat)
    | ContestDeclined(agent: Name, target: nat)
    | ContestOpened(contest: nat, agent: Name, target: nat, cost: nat)
    | ContestSettled(contest: nat, agent: Name, won: bool, refund: nat, burned: nat)
    | ContestVoid(contest: nat, agent: Name, refund: nat)
    | RoundStart(order: seq<Name>)
    | ClaimError(agent: Name, commitment: nat)
    | PositionFiled(position: Position)
    | PositionNote(agent: Name, target: nat)
    | DeadlockFound(deadlock: Deadlock)
    | CitationDropped(ruling: nat, citation: string)
    | RulingRejected(ruling: nat, cited: seq<string>)
    | RulingSigned(signed: SignedRuling)
    | OpRejected(ruling: nat, op: RulingOp)
    | RoundEnd(commits: nat, rejected: nat, positions: nat, blocked: nat, contests: nat, deadlocks: nat)
    | Quiescent
    | FiatCalled
    | SafetyFinalize
    | ManifestRecorded(manifest: Manifest, hash: Bytes, rounds: nat, quiescent: bool)

  datatype Stamped = Stamped(round: nat, event: Event)

  type Log = seq<Stamped>

  function Stamp(round: nat, events: seq<Event>): (r: Log)
    ensures |r| == |events| && forall i :: 0 <= i < |r| ==> r[i] == Stamped(round, events[i])
  {
    seq(|events|, i requires 0 <= i < |events| => Stamped(round, events[i]))
  }

  // ---------------------------------------------------------------- hashing

  const NONCE_BYTES := 16

  /** What is hashed for a log entry besides the previous hash. */
  datatype Envelope = Envelope(seqno: nat, stamp: Stamped)

  /** The hash function and the canonical encodings, all left abstract. */
  datatype Crypto = Crypto(
    hash: Bytes -> Bytes,
    claim: Proposal -> Bytes,
    entry: Envelope -> Bytes,
    manifest: Manifest -> Bytes)

  /** `SHA256(canonical(claim) || nonce)`; a nonce of the wrong length has no digest. */
  function CommitmentDigest(c: Crypto, p: Proposal, nonce: Bytes): Option<Bytes> {
    if |nonce| != NONCE_BYTES then None else Some(c.hash(c.claim(p) + nonce))
  }

  predicate VerifyCommitment(c: Crypto, p: Proposal, nonce: Bytes, digest: Bytes) {
    CommitmentDigest(c, p, nonce) == Some(digest)
  }

  function ManifestHash(c: Crypto, m: Manifest): Bytes {
    c.hash(c.manifest(m))
  }
}
