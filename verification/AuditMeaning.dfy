/** What the audit's verdict means, line by line: an independent reading of the log. */
module AuditMeaning {
  import opened Order
  import opened Schemas
  import opened Ledger
  import opened Books
  import opened ChainLog
  import V = Verify

  // ---------------------------------------------------------------- reading the log directly

  /** The unit was handed out and has not been given back since. */
  ghost predicate StillHeld(log: Log, r: Name, b: Name) {
    exists i :: 0 <= i < |log| && Hands(log[i].event, r, b) && forall j :: i < j < |log| ==> !TakesBack(log[j].event, r, b)
  }

  predicate Hands(e: Event, r: Name, b: Name) {
    e.AllocEvent? && e.resource == r && e.beneficiary == b
  }

  predicate TakesBack(e: Event, r: Name, b: Name) {
    e.DeallocEvent? && e.resource == r && e.beneficiary == b
  }

  /** The latest registration of the resource. */
  ghost predicate Registered(log: Log, r: Name, x: Resource) {
    exists i :: 0 <= i < |log| && log[i].event == ResourceAdded(r, x.capacity, x.group)
                && forall j :: i < j < |log| ==> !Registers(log[j].event, r)
  }

  predicate Registers(e: Event, r: Name) {
    e.ResourceAdded? && e.id == r
  }

  /** The latest digest committed under the number. */
  ghost predicate Committed(log: Log, m: nat, digest: Bytes) {
    exists i :: 0 <= i < |log| && log[i].event.Commit? && log[i].event.commitment == m && log[i].event.digest == digest
                && forall j :: i < j < |log| ==> !(log[j].event.Commit? && log[j].event.commitment == m)
  }

  lemma ReadLast(log: Log)
    requires log != []
    ensures ReadAll(BLANK, log) == Read(ReadAll(BLANK, log[..|log|-1]), log[|log|-1].event)
  {
    var one := [log[|log|-1]];
    assert log == log[..|log|-1] + one && one[1..] == [];
    ReadConcat(BLANK, log[..|log|-1], one);
  }

  lemma {:induction false} HeldIs(log: Log, r: Name, b: Name)
    ensures (r, b) in ReadAll(BLANK, log).held <==> StillHeld(log, r, b)
    decreases |log|
  {
    if log != [] {
      var n, before := |log| - 1, log[..|log|-1];
      HeldIs(before, r, b);
      ReadLast(log);
      hide ReadAll;
      if Hands(log[n].event, r, b) {
        assert StillHeld(log, r, b);
      } else {
        HeldBefore(log, r, b);
      }
    }
  }

  lemma HeldBefore(log: Log, r: Name, b: Name)
    requires log != [] && !Hands(log[|log|-1].event, r, b)
    ensures StillHeld(log, r, b) <==> StillHeld(log[..|log|-1], r, b) && !TakesBack(log[|log|-1].event, r, b)
  {
    hide Hands, TakesBack;
    var n, before := |log| - 1, log[..|log|-1];
    if StillHeld(log, r, b) {
      var i :| 0 <= i < |log| && Hands(log[i].event, r, b) && forall j :: i < j < |log| ==> !TakesBack(log[j].event, r, b);
      assert before[i] == log[i];
      assert forall j :: i < j < n ==> before[j] == log[j];
    }
    if StillHeld(before, r, b) && !TakesBack(log[n].event, r, b) {
      var i :| 0 <= i < n && Hands(before[i].event, r, b) && forall j :: i < j < n ==> !TakesBack(before[j].event, r, b);
      assert forall j :: i <= j < n ==> before[j] == log[j];
    }
  }

  lemma {:induction false} RegisteredIs(log: Log, r: Name, x: Resource)
    ensures r in ReadAll(BLANK, log).resources && ReadAll(BLANK, log).resources[r] == x <==> Registered(log, r, x)
    decreases |log|
  {
    if log != [] {
      var n, before := |log| - 1, log[..|log|-1];
      RegisteredIs(before, r, x);
      ReadLast(log);
      hide ReadAll;
      var e := log[n].event;
      if Registers(e, r) {
        if Resource(e.capacity, e.group) == x { assert Registered(log, r, x); }
      } else {
        RegisteredBefore(log, r, x);
      }
    }
  }

  lemma RegisteredBefore(log: Log, r: Name, x: Resource)
    requires log != [] && !Registers(log[|log|-1].event, r)
    ensures Registered(log, r, x) <==> Registered(log[..|log|-1], r, x)
  {
    var n, before := |log| - 1, log[..|log|-1];
    assert forall j :: 0 <= j < n ==> before[j] == log[j];
    if Registered(log, r, x) {
      var i :| 0 <= i < |log| && log[i].event == ResourceAdded(r, x.capacity, x.group) && forall j :: i < j < |log| ==> !Registers(log[j].event, r);
      assert before[i].event == ResourceAdded(r, x.capacity, x.group);
    }
  }

  lemma {:induction false} CommittedIs(log: Log, m: nat, digest: Bytes)
    ensures m in ReadAll(BLANK, log).digests && ReadAll(BLANK, log).digests[m] == digest <==> Committed(log, m, digest)
    decreases |log|
  {
    if log != [] {
      var n, before := |log| - 1, log[..|log|-1];
      CommittedIs(before, m, digest);
      ReadLast(log);
      hide ReadAll;
      var e := log[n].event;
      if e.Commit? && e.commitment == m {
        if e.digest == digest { assert Committed(log, m, digest); }
      } else {
        assert forall j :: 0 <= j < n ==> before[j] == log[j];
        if i :| 0 <= i < |log| && log[i].event.Commit? && log[i].event.commitment == m && log[i].event.digest == digest
                && forall j :: i < j < |log| ==> !(log[j].event.Commit? && log[j].event.commitment == m) {
          assert before[i].event.Commit?;
        }
      }
    }
  }

  // ---------------------------------------------------------------- the verdict

  ghost function HoldersAtEnd(log: Log, r: Name): set<Name> {
    set b | b in On(ReadAll(BLANK, log).held, r) && StillHeld(log, r, b)
  }

  lemma HoldersAre(log: Log, r: Name)
    ensures HoldersAtEnd(log, r) == On(ReadAll(BLANK, log).held, r) && forall b :: b in HoldersAtEnd(log, r) <==> StillHeld(log, r, b)
  {
    forall b ensures (r, b) in ReadAll(BLANK, log).held <==> StillHeld(log, r, b) { HeldIs(log, r, b); }
    hide ReadAll, StillHeld;
    forall b ensures b in On(ReadAll(BLANK, log).held, r) <==> (r, b) in ReadAll(BLANK, log).held {}
  }

  /** Every resource somebody still holds was registered, for at least as many as hold it. */
  ghost predicate FitsCapacity(log: Log) {
    forall r, b :: StillHeld(log, r, b) ==> (exists x :: Registered(log, r, x)) && forall x :: Registered(log, r, x) ==> |HoldersAtEnd(log, r)| <= x.capacity
  }

  /** Nobody still holds two resources of one group. */
  ghost predicate OneEach(log: Log) {
    forall r, q, b, x, y :: StillHeld(log, r, b) && StillHeld(log, q, b) && Registered(log, r, x) && Registered(log, q, y) && x.group.Some? && x.group == y.group ==> r == q
  }

  /** Accepted reveals re-derive the digest committed, and rejected ones do not. */
  ghost predicate RevealsAgree(c: Crypto, log: Log) {
    && (forall e :: e in log && e.event.RevealOk? ==> Rederives(c, log, e.event.commitment, e.event.proposal, e.event.nonce))
    && (forall e :: e in log && e.event.RevealReject? ==> !Rederives(c, log, e.event.commitment, e.event.proposal, e.event.nonce))
  }

  ghost predicate Rederives(c: Crypto, log: Log, m: nat, p: Proposal, nonce: Bytes) {
    |nonce| == NONCE_BYTES && Committed(log, m, c.hash(c.claim(p) + nonce))
  }

  /** The latest manifest on the log lists, resource by resource, exactly those who still hold it, and its hash is right. */
  ghost predicate ManifestAgrees(c: Crypto, log: Log) {
    exists i: nat :: LatestManifest(log, i)
                && log[i].event.hash == c.hash(c.manifest(log[i].event.manifest)) && ListsHolders(log, log[i].event.manifest)
  }

  ghost predicate LatestManifest(log: Log, i: nat) {
    i < |log| && log[i].event.ManifestRecorded? && forall j :: i < j < |log| ==> !log[j].event.ManifestRecorded?
  }

  ghost predicate ListsHolders(log: Log, m: Manifest) {
    && (forall r :: r in m <==> exists b :: StillHeld(log, r, b))
    && forall r :: r in m ==> Sorted(m[r], NameLe) && NoDup(m[r]) && forall b :: b in m[r] <==> StillHeld(log, r, b)
  }

  ghost predicate EveryRulingCites(log: Log) {
    forall e :: e in log && e.event.RulingSigned? ==> exists s :: s in e.event.signed.body.citations && !forall c :: c in s ==> Whitespace(c)
  }

  // ---------------------------------------------------------------- check by check

  lemma HeldCells(log: Log)
    ensures forall r, b :: (r, b) in ReadAll(BLANK, log).held <==> StillHeld(log, r, b)
  {
    hide ReadAll, StillHeld;
    forall r, b { HeldIs(log, r, b); }
  }

  lemma ReplayLists(log: Log)
    ensures ListsHolders(log, V.Replayed(log)) && forall r :: r in V.Replayed(log) ==> |V.Replayed(log)[r]| == |HoldersAtEnd(log, r)|
  {
    hide StillHeld, HoldersAtEnd, ReadAll, Resources, On, ManifestOf, NameLe;
    var m, held := V.Replayed(log), ReadAll(BLANK, log).held;
    HeldCells(log);
    ResourcesHave(held);
    forall r | r in m ensures Sorted(m[r], NameLe) && NoDup(m[r]) && |m[r]| == |HoldersAtEnd(log, r)| {
      ListSorted(held, r);
      HoldersAre(log, r);
    }
  }

  lemma ResourcesHave(held: set<Cell>)
    ensures forall r :: r in Resources(held) <==> exists b :: (r, b) in held
  {
    forall r | r in Resources(held) ensures exists b :: (r, b) in held {
      var k :| k in held && k.0 == r;
      assert k == (r, k.1);
    }
    forall r, b | (r, b) in held ensures r in Resources(held) {}
  }

  lemma ListSorted(held: set<Cell>, r: Name)
    requires r in ManifestOf(held)
    ensures Sorted(ManifestOf(held)[r], NameLe) && NoDup(ManifestOf(held)[r])
  {
    NameOrder();
    hide NameLe, On;
  }

  lemma CapacityMeans(log: Log)
    ensures V.WithinCapacity(V.Replayed(log), ReadAll(BLANK, log).resources) <==> FitsCapacity(log)
  {
    hide V.Replayed, ReadAll, StillHeld, HoldersAtEnd, Registered;
    var m, rs := V.Replayed(log), ReadAll(BLANK, log).resources;
    ReplayLists(log);
    forall r, x ensures (r in rs && rs[r] == x) <==> Registered(log, r, x) { RegisteredIs(log, r, x); }
    if V.WithinCapacity(m, rs) {
      forall r, b | StillHeld(log, r, b)
        ensures (exists x :: Registered(log, r, x)) && forall x :: Registered(log, r, x) ==> |HoldersAtEnd(log, r)| <= x.capacity
      {
        assert r in m && b in m[r];
        assert r in rs && Registered(log, r, rs[r]);
      }
    }
    if FitsCapacity(log) {
      forall r | r in m ensures |m[r]| <= V.CapacityIn(rs, r) {
        var b :| StillHeld(log, r, b);
        var x :| Registered(log, r, x);
      }
    }
  }

  lemma ClashMeans(log: Log)
    ensures V.NoClash(V.Replayed(log), ReadAll(BLANK, log).resources) <==> OneEach(log)
  {
    hide V.Replayed, ReadAll, StillHeld, HoldersAtEnd, Registered;
    var m, rs := V.Replayed(log), ReadAll(BLANK, log).resources;
    ReplayLists(log);
    forall r, x ensures (r in rs && rs[r] == x) <==> Registered(log, r, x) { RegisteredIs(log, r, x); }
    if V.NoClash(m, rs) {
      forall r, q, b, x, y | StillHeld(log, r, b) && StillHeld(log, q, b) && Registered(log, r, x) && Registered(log, q, y) && x.group.Some? && x.group == y.group
        ensures r == q
      {
        assert r in m && q in m && !V.Clash(m, rs, r, q);
      }
    }
    if OneEach(log) {
      forall r, q | r in m && q in m ensures !V.Clash(m, rs, r, q) {
        if b :| b in m[r] && b in m[q] && V.GroupIn(rs, r).Some? && V.GroupIn(rs, r) == V.GroupIn(rs, q) {
          assert Registered(log, r, rs[r]) && Registered(log, q, rs[q]);
        }
      }
    }
  }

  lemma RevealsMean(c: Crypto, log: Log)
    ensures V.AcceptedMatch(c, log, ReadAll(BLANK, log).digests) && V.RejectedMismatch(c, log, ReadAll(BLANK, log).digests) <==> RevealsAgree(c, log)
  {
    hide ReadAll, Committed;
    forall m, p, nonce ensures V.Digested(c, ReadAll(BLANK, log).digests, m, p, nonce) <==> Rederives(c, log, m, p, nonce) {
      CommittedIs(log, m, c.hash(c.claim(p) + nonce));
    }
    hide V.Digested, Rederives;
  }

  lemma {:induction false} LastIs(log: Log)
    ensures var rec := V.LastManifest(log);
            if rec.None? then forall j :: 0 <= j < |log| ==> !log[j].event.ManifestRecorded?
            else exists i: nat :: LatestManifest(log, i) && rec.value == V.Recorded(log[i].event.manifest, log[i].event.hash)
    decreases |log|
  {
    if log != [] && !log[|log|-1].event.ManifestRecorded? {
      var before := log[..|log|-1];
      LastIs(before);
      assert forall j :: 0 <= j < |log| - 1 ==> before[j] == log[j];
    }
  }

  lemma SameLists(log: Log, m: Manifest, n: Manifest)
    requires ListsHolders(log, m) && ListsHolders(log, n)
    ensures m == n
  {
    hide StillHeld, NameLe;
    NameOrder();
    forall r | r in m ensures m[r] == n[r] { SortedUnique(m[r], n[r], NameLe); }
  }

  lemma ManifestMeans(c: Crypto, log: Log)
    ensures V.ReplayMatches(c, log) <==> ManifestAgrees(c, log)
  {
    LastIs(log);
    ReplayLists(log);
    hide V.Replayed, V.LastManifest, ListsHolders;
    var rec := V.LastManifest(log);
    if k: nat :| LatestManifest(log, k) && rec.Some? && rec.value == V.Recorded(log[k].event.manifest, log[k].event.hash) {
      if ListsHolders(log, log[k].event.manifest) { SameLists(log, V.Replayed(log), log[k].event.manifest); }
      forall i: nat | LatestManifest(log, i) ensures i == k { OneLatest(log, i, k); }
      hide LatestManifest;
    }
  }

  lemma OneLatest(log: Log, i: nat, k: nat)
    requires LatestManifest(log, i) && LatestManifest(log, k)
    ensures i == k
  {
    assert !(i < k) && !(k < i);
  }

  lemma CitesMeans(log: Log)
    ensures V.RulingsCite(log) <==> EveryRulingCites(log)
  {
    hide Whitespace;
  }

  /**
   * The audit of a chained log passes if and only if: every resource anybody still holds is within its registration,
   * nobody still holds two resources of one group, accepted reveals and only those re-derive what was committed, every
   * ruling cites a source, and the latest manifest lists exactly who still holds what, with the right hash.
   */
  lemma PassesMeans(c: Crypto, log: Log)
    requires log != [] && log[0].event.Genesis?
    ensures V.Passes(c, Chain(c, log)) <==>
            ManifestAgrees(c, log) && FitsCapacity(log) && OneEach(log) && EveryRulingCites(log) && RevealsAgree(c, log)
  {
    hide V.WithinCapacity, V.NoClash, V.RulingsCite, V.AcceptedMatch, V.RejectedMismatch, V.ReplayMatches, ChainOk, ReadAll, V.Replayed;
    hide ManifestAgrees, FitsCapacity, OneEach, EveryRulingCites, RevealsAgree, Chain;
    BuiltChainVerifies(c, log);
    CapacityMeans(log);
    ClashMeans(log);
    RevealsMean(c, log);
    ManifestMeans(c, log);
    CitesMeans(log);
  }
}
