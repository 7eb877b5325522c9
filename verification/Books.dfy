/** What a reader of the log alone can reconstruct: allocations, resources and sealed digests. */
module Books {
  import opened Order
  import opened Schemas
  import opened Ledger

  datatype Accounts = Accounts(held: set<Cell>, resources: map<Name, Resource>, digests: map<nat, Bytes>)

  const BLANK := Accounts({}, map[], map[])

  function Read(b: Accounts, e: Event): Accounts {
    match e
    case AllocEvent(r, ben, _) => b.(held := b.held + {(r, ben)})
    case DeallocEvent(r, ben, _) => b.(held := b.held - {(r, ben)})
    case ResourceAdded(id, capacity, group) => b.(resources := b.resources[id := Resource(capacity, group)])
    case Commit(id, _, digest) => b.(digests := b.digests[id := digest])
    case _ => b
  }

  function ReadAll(b: Accounts, log: Log): Accounts
    decreases |log|
  {
    if log == [] then b else ReadAll(Read(b, log[0].event), log[1..])
  }

  /** An accepted reveal opens its commitment, and a rejected one does not. */
  predicate Fair(c: Crypto, digests: map<nat, Bytes>, e: Event) {
    match e
    case RevealOk(m, _, _, p, nonce) => m in digests && CommitmentDigest(c, p, nonce) == Some(digests[m])
    case RevealReject(m, _, p, nonce, _) => m in digests && CommitmentDigest(c, p, nonce) != Some(digests[m])
    case _ => true
  }

  /** The account a ledger state must read as. */
  function AccountsOf(s: State): Accounts {
    Accounts(s.allocs.Keys, s.resources, map m | m in s.commits :: s.commits[m].digest)
  }

  /** The log tells the whole story of the ledger. */
  ghost predicate Tells(c: Crypto, log: Log, s: State) {
    && ReadAll(BLANK, log) == AccountsOf(s)
    && forall e :: e in log ==> Fair(c, AccountsOf(s).digests, e.event)
  }

  // ---------------------------------------------------------------- reading in pieces

  lemma {:induction false} ReadConcat(b: Accounts, l1: Log, l2: Log)
    ensures ReadAll(b, l1 + l2) == ReadAll(ReadAll(b, l1), l2)
    decreases |l1|
  {
    if l1 == [] {
      assert l1 + l2 == l2;
    } else {
      assert (l1 + l2)[1..] == l1[1..] + l2 && (l1 + l2)[0] == l1[0];
      ReadConcat(Read(b, l1[0].event), l1[1..], l2);
    }
  }

  lemma ReadOne(b: Accounts, e: Stamped)
    ensures ReadAll(b, [e]) == Read(b, e.event)
  {
    assert ReadAll(Read(b, e.event), [e][1..]) == Read(b, e.event);
  }

  lemma StampConcat(round: nat, e1: seq<Event>, e2: seq<Event>)
    ensures Stamp(round, e1 + e2) == Stamp(round, e1) + Stamp(round, e2)
  {}

  lemma {:induction false} ReadAllocs(b: Accounts, round: nat, id: nat, r: Name, bens: seq<Name>)
    ensures ReadAll(b, Stamp(round, AllocEvents(id, r, bens))) == b.(held := b.held + set x | x in bens :: (r, x))
    decreases |bens|
  {
    var cells := set x | x in bens :: (r, x);
    if bens == [] {
      assert cells == {};
      assert b.held + cells == b.held;
    } else {
      var log := Stamp(round, AllocEvents(id, r, bens));
      assert log[1..] == Stamp(round, AllocEvents(id, r, bens[1..]));
      var b1 := Read(b, log[0].event);
      ReadAllocs(b1, round, id, r, bens[1..]);
      var rest := set x | x in bens[1..] :: (r, x);
      assert cells == {(r, bens[0])} + rest by {
        assert forall x :: x in bens <==> x == bens[0] || x in bens[1..];
      }
      assert b1.held + rest == b.held + cells;
    }
  }

  lemma {:induction false} ReadDeallocs(b: Accounts, round: nat, id: nat, r: Name, bens: seq<Name>)
    ensures ReadAll(b, Stamp(round, DeallocEvents(id, r, bens))) == b.(held := b.held - set x | x in bens :: (r, x))
    decreases |bens|
  {
    var cells := set x | x in bens :: (r, x);
    if bens == [] {
      assert cells == {};
      assert b.held - cells == b.held;
    } else {
      var log := Stamp(round, DeallocEvents(id, r, bens));
      assert log[1..] == Stamp(round, DeallocEvents(id, r, bens[1..]));
      var b1 := Read(b, log[0].event);
      ReadDeallocs(b1, round, id, r, bens[1..]);
      var rest := set x | x in bens[1..] :: (r, x);
      assert cells == {(r, bens[0])} + rest by {
        assert forall x :: x in bens <==> x == bens[0] || x in bens[1..];
      }
      assert b1.held - rest == b.held - cells;
    }
  }

  /** Events that say nothing about allocations, resources or commitments. */
  predicate Silent(e: Event) {
    !e.AllocEvent? && !e.DeallocEvent? && !e.ResourceAdded? && !e.Commit?
  }

  lemma {:induction false} ReadSilent(b: Accounts, log: Log)
    requires forall e :: e in log ==> Silent(e.event)
    ensures ReadAll(b, log) == b
    decreases |log|
  {
    if log != [] {
      assert log[0] in log;
      ReadSilent(b, log[1..]);
    }
  }
}
