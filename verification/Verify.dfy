/** The auditor: replays a log and re-checks the invariants, from the log alone. */
module Verify {
  import opened Order
  import opened Schemas
  import opened Ledger
  import opened Books
  import opened ChainLog

  // ---------------------------------------------------------------- what is checked

  /** I5: the allocation state rebuilt from the `alloc`/`dealloc` lines. */
  function Replayed(log: Log): Manifest {
    ManifestOf(ReadAll(BLANK, log).held)
  }

  datatype Recorded = Recorded(manifest: Manifest, hash: Bytes)

  /** The last manifest entry, if any. */
  function LastManifest(log: Log): Option<Recorded>
    decreases |log|
  {
    if log == [] then None
    else
      match log[|log|-1].event
      case ManifestRecorded(m, h, _, _) => Some(Recorded(m, h))
      case _ => LastManifest(log[..|log|-1])
  }

  predicate ReplayMatches(c: Crypto, log: Log) {
    match LastManifest(log)
    case None => false
    case Some(rec) => Replayed(log) == rec.manifest && ManifestHash(c, Replayed(log)) == rec.hash
  }

  function CapacityIn(rs: map<Name, Resource>, r: Name): nat {
    if r in rs then rs[r].capacity else 0
  }

  function GroupIn(rs: map<Name, Resource>, r: Name): Option<Name> {
    if r in rs then rs[r].group else None
  }

  /** I1: no resource over the capacity it was registered with. */
  predicate WithinCapacity(m: Manifest, rs: map<Name, Resource>) {
    forall r :: r in m ==> |m[r]| <= CapacityIn(rs, r)
  }

  /** Two resources of one group hold a common beneficiary. */
  predicate Clash(m: Manifest, rs: map<Name, Resource>, r: Name, q: Name)
    requires r in m && q in m
  {
    r != q && GroupIn(rs, r).Some? && GroupIn(rs, r) == GroupIn(rs, q) && exists b :: b in m[r] && b in m[q]
  }

  /** I1: no beneficiary holds two units in one group. */
  predicate NoClash(m: Manifest, rs: map<Name, Resource>) {
    forall r, q :: r in m && q in m ==> !Clash(m, rs, r, q)
  }

  /** I3: every ruling cites a source. */
  predicate RulingsCite(log: Log) {
    forall e :: e in log && e.event.RulingSigned? ==> Cites(e.event.signed.body.citations)
  }

  predicate Digested(c: Crypto, digests: map<nat, Bytes>, m: nat, p: Proposal, nonce: Bytes) {
    m in digests && CommitmentDigest(c, p, nonce) == Some(digests[m])
  }

  /** I4: accepted reveals re-derive their digest, rejected ones do not. */
  predicate AcceptedMatch(c: Crypto, log: Log, digests: map<nat, Bytes>) {
    forall e :: e in log && e.event.RevealOk? ==> Digested(c, digests, e.event.commitment, e.event.proposal, e.event.nonce)
  }

  predicate RejectedMismatch(c: Crypto, log: Log, digests: map<nat, Bytes>) {
    forall e :: e in log && e.event.RevealReject? ==> !Digested(c, digests, e.event.commitment, e.event.proposal, e.event.nonce)
  }

  /** A reveal whose nonce is not 16 bytes makes the reveal check raise. */
  predicate BadNonce(e: Event) {
    (e.RevealOk? || e.RevealReject?) && |e.nonce| != NONCE_BYTES
  }

  predicate Raises(log: Log) {
    exists e :: e in log && BadNonce(e.event)
  }

  predicate Passes(c: Crypto, rows: seq<LogEntry>) {
    var log := Stamps(rows);
    var books := ReadAll(BLANK, log);
    && ChainOk(c, rows)
    && ReplayMatches(c, log)
    && WithinCapacity(Replayed(log), books.resources)
    && NoClash(Replayed(log), books.resources)
    && RulingsCite(log)
    && AcceptedMatch(c, log, books.digests)
    && RejectedMismatch(c, log, books.digests)
  }

  // ---------------------------------------------------------------- the checks as they run

  lemma ReadPrefix(log: Log, i: nat)
    requires i < |log|
    ensures ReadAll(BLANK, log[..i+1]) == Read(ReadAll(BLANK, log[..i]), log[i].event)
  {
    assert log[..i+1] == log[..i] + [log[i]];
    ReadConcat(BLANK, log[..i], [log[i]]);
    ReadOne(ReadAll(BLANK, log[..i]), log[i]);
  }

  type Held = map<Name, set<Name>>

  function HeldOn(h: Held, r: Name): set<Name> {
    if r in h then h[r] else {}
  }

  ghost predicate Mirrors(h: Held, cells: set<Cell>) {
    forall r, b :: b in HeldOn(h, r) <==> (r, b) in cells
  }

  lemma MirrorOn(h: Held, cells: set<Cell>, r: Name)
    requires Mirrors(h, cells)
    ensures HeldOn(h, r) == On(cells, r) && (r in Resources(cells) <==> HeldOn(h, r) != {})
  {
    forall b ensures b in HeldOn(h, r) <==> b in On(cells, r) {
      assert b in HeldOn(h, r) <==> (r, b) in cells;
      if b in On(cells, r) { var k :| k in cells && k.0 == r && k.1 == b; assert k == (r, b); }
    }
    if r in Resources(cells) { var k :| k in cells && k.0 == r; assert k.1 in On(cells, r); }
    if b :| b in HeldOn(h, r) { assert (r, b) in cells; }
  }

  lemma MirrorManifest(h: Held, cells: set<Cell>)
    requires Mirrors(h, cells)
    ensures (map r | r in h && h[r] != {} :: SortedNames(h[r])) == ManifestOf(cells)
  {
    hide Mirrors, On, Resources, SortedNames;
    forall r ensures HeldOn(h, r) == On(cells, r) && (r in Resources(cells) <==> HeldOn(h, r) != {}) { MirrorOn(h, cells, r); }
  }

  /** `replay_manifest`. */
  method ReplayManifest(log: Log) returns (m: Manifest)
    ensures m == Replayed(log)
  {
    var held: Held := map[];
    for i := 0 to |log|
      invariant Mirrors(held, ReadAll(BLANK, log[..i]).held)
    {
      ReadPrefix(log, i);
      match log[i].event
      case AllocEvent(r, b, _) => held := held[r := HeldOn(held, r) + {b}];
      case DeallocEvent(r, b, _) => if r in held { held := held[r := held[r] - {b}]; }
      case _ =>
    }
    assert log[..|log|] == log;
    MirrorManifest(held, ReadAll(BLANK, log).held);
    m := map r | r in held && held[r] != {} :: SortedNames(held[r]);
  }

  method CollectBooks(log: Log) returns (resources: map<Name, Resource>, digests: map<nat, Bytes>)
    ensures resources == ReadAll(BLANK, log).resources && digests == ReadAll(BLANK, log).digests
  {
    resources, digests := map[], map[];
    for i := 0 to |log|
      invariant resources == ReadAll(BLANK, log[..i]).resources && digests == ReadAll(BLANK, log[..i]).digests
    {
      ReadPrefix(log, i);
      match log[i].event
      case ResourceAdded(id, capacity, group) => resources := resources[id := Resource(capacity, group)];
      case Commit(id, _, digest) => digests := digests[id := digest];
      case _ =>
    }
    assert log[..|log|] == log;
  }

  /** The manifest entry found reading backwards. */
  method FindManifest(log: Log) returns (rec: Option<Recorded>)
    ensures rec == LastManifest(log)
  {
    var i := |log|;
    assert log[..|log|] == log;
    while i > 0
      invariant 0 <= i <= |log| && LastManifest(log[..i]) == LastManifest(log)
    {
      i := i - 1;
      assert log[..i+1][..i] == log[..i];
      match log[i].event
      case ManifestRecorded(m, h, _, _) => return Some(Recorded(m, h));
      case _ =>
    }
    rec := None;
  }

  method CheckCapacity(m: Manifest, rs: map<Name, Resource>) returns (ok: bool)
    ensures ok <==> WithinCapacity(m, rs)
  {
    hide *;
    ok := true;
    var names := SortedNames(m.Keys);
    FitsNone(m, rs);
    for i := 0 to |names|
      invariant ok <==> FitsSoFar(m, rs, names[..i])
    {
      FitsMore(m, rs, names, i);
      if |m[names[i]]| > CapacityIn(rs, names[i]) { ok := false; }
    }
    assert names[..|names|] == names;
    FitsAll(m, rs, names);
  }

  lemma FitsNone(m: Manifest, rs: map<Name, Resource>)
    ensures FitsSoFar(m, rs, [])
  {}

  lemma FitsMore(m: Manifest, rs: map<Name, Resource>, names: seq<Name>, i: nat)
    requires i < |names| && forall r :: r in names ==> r in m
    ensures names[i] in m && (FitsSoFar(m, rs, names[..i+1]) <==> FitsSoFar(m, rs, names[..i]) && |m[names[i]]| <= CapacityIn(rs, names[i]))
  {
    hide CapacityIn;
    assert names[..i+1] == names[..i] + [names[i]];
    assert names[i] in names;
  }

  lemma FitsAll(m: Manifest, rs: map<Name, Resource>, names: seq<Name>)
    requires forall r :: r in names <==> r in m
    ensures FitsSoFar(m, rs, names) <==> WithinCapacity(m, rs)
  {
    hide CapacityIn;
  }

  predicate FitsSoFar(m: Manifest, rs: map<Name, Resource>, names: seq<Name>) {
    forall r :: r in names && r in m ==> |m[r]| <= CapacityIn(rs, r)
  }

  /** Which (group, beneficiary) pairs the first resources already use. */
  ghost predicate SeenBy(m: Manifest, rs: map<Name, Resource>, names: seq<Name>, k: (Name, Name))
    requires forall r :: r in names ==> r in m
  {
    exists j :: 0 <= j < |names| && GroupIn(rs, names[j]) == Some(k.0) && k.1 in m[names[j]]
  }

  ghost predicate ClearSoFar(m: Manifest, rs: map<Name, Resource>, names: seq<Name>)
    requires forall r :: r in names ==> r in m
  {
    forall i, j :: 0 <= i < j < |names| ==> !Clash(m, rs, names[i], names[j])
  }

  lemma ClearAll(m: Manifest, rs: map<Name, Resource>, names: seq<Name>)
    requires forall r :: r in names <==> r in m
    requires NoDup(names)
    ensures ClearSoFar(m, rs, names) <==> NoClash(m, rs)
  {
    if ClearSoFar(m, rs, names) {
      forall r, q | r in m && q in m ensures !Clash(m, rs, r, q) {
        var i :| 0 <= i < |names| && names[i] == r;
        var j :| 0 <= j < |names| && names[j] == q;
        assert i < j ==> !Clash(m, rs, names[i], names[j]);
        assert j < i ==> !Clash(m, rs, names[j], names[i]);
      }
    }
  }

  /** One resource more: it clashes with an earlier one exactly when one of its pairs was seen. */
  lemma ClearStep(m: Manifest, rs: map<Name, Resource>, names: seq<Name>, r: Name)
    requires (forall q :: q in names ==> q in m) && r in m && r !in names
    ensures ClearSoFar(m, rs, names + [r]) <==>
            ClearSoFar(m, rs, names)
            && (GroupIn(rs, r).Some? ==> forall b :: b in m[r] ==> !SeenBy(m, rs, names, (GroupIn(rs, r).value, b)))
  {
    var n := names + [r];
    if ClearSoFar(m, rs, n) {
      forall i, j | 0 <= i < j < |names| ensures !Clash(m, rs, names[i], names[j]) { assert !Clash(m, rs, n[i], n[j]); }
      if GroupIn(rs, r).Some? {
        forall b | b in m[r] ensures !SeenBy(m, rs, names, (GroupIn(rs, r).value, b)) {
          forall j | 0 <= j < |names| && GroupIn(rs, names[j]) == GroupIn(rs, r) ensures b !in m[names[j]] {
            assert !Clash(m, rs, n[j], n[|names|]) && names[j] in names;
          }
        }
      }
    } else {
      var i, j :| 0 <= i < j < |n| && Clash(m, rs, n[i], n[j]);
      if j < |names| { assert Clash(m, rs, names[i], names[j]); }
      else {
        var b :| b in m[n[i]] && b in m[n[j]];
        assert GroupIn(rs, names[i]) == GroupIn(rs, r);
      }
    }
  }

  method CheckExclusivity(m: Manifest, rs: map<Name, Resource>) returns (ok: bool)
    requires forall r :: r in m ==> NoDup(m[r])
    ensures ok <==> NoClash(m, rs)
  {
    hide NoClash, ClearSoFar, Clash, SeenBy, SortedNames;
    ok := true;
    var names := SortedNames(m.Keys);
    NothingSeen(m, rs);
    var seen: map<(Name, Name), Name> := map[];
    for i := 0 to |names|
      invariant ok <==> ClearSoFar(m, rs, names[..i])
      invariant forall k :: k in seen <==> SeenBy(m, rs, names[..i], k)
    {
      var r := names[i];
      assert names[..i+1] == names[..i] + [r];
      ClearStep(m, rs, names[..i], r);
      var clash;
      clash, seen := ScanResource(m, rs, names[..i], r, seen);
      if clash { ok := false; }
    }
    assert names[..|names|] == names;
    ClearAll(m, rs, names);
  }

  lemma NothingSeen(m: Manifest, rs: map<Name, Resource>)
    ensures ClearSoFar(m, rs, []) && forall k :: !SeenBy(m, rs, [], k)
  {}

  method ScanResource(m: Manifest, rs: map<Name, Resource>, ghost names: seq<Name>, r: Name, seen0: map<(Name, Name), Name>)
    returns (clash: bool, seen: map<(Name, Name), Name>)
    requires (forall q :: q in names ==> q in m) && r in m && r !in names && NoDup(m[r])
    requires forall k :: k in seen0 <==> SeenBy(m, rs, names, k)
    ensures clash <==> GroupIn(rs, r).Some? && exists b :: b in m[r] && SeenBy(m, rs, names, (GroupIn(rs, r).value, b))
    ensures forall k :: k in seen <==> SeenBy(m, rs, names + [r], k)
  {
    clash, seen := false, seen0;
    if GroupIn(rs, r).Some? {
      var g := GroupIn(rs, r).value;
      for j := 0 to |m[r]|
        invariant clash <==> exists b :: b in m[r][..j] && SeenBy(m, rs, names, (g, b))
        invariant forall k :: k in seen <==> k in seen0 || (k.0 == g && k.1 in m[r][..j])
      {
        var key := (g, m[r][j]);
        assert m[r][j] !in m[r][..j];
        assert m[r][..j+1] == m[r][..j] + [m[r][j]];
        if key in seen { clash := true; } else { seen := seen[key := r]; }
      }
      assert m[r][..|m[r]|] == m[r];
    }
    forall k ensures k in seen <==> SeenBy(m, rs, names + [r], k) { SeenStep(m, rs, names, r, k); }
  }

  lemma SeenStep(m: Manifest, rs: map<Name, Resource>, names: seq<Name>, r: Name, k: (Name, Name))
    requires (forall q :: q in names ==> q in m) && r in m
    ensures SeenBy(m, rs, names + [r], k) <==> SeenBy(m, rs, names, k) || (GroupIn(rs, r) == Some(k.0) && k.1 in m[r])
  {
    var n := names + [r];
    if SeenBy(m, rs, names, k) {
      var j :| 0 <= j < |names| && GroupIn(rs, names[j]) == Some(k.0) && k.1 in m[names[j]];
      assert n[j] == names[j];
    }
    if GroupIn(rs, r) == Some(k.0) && k.1 in m[r] { assert n[|names|] == r; }
  }

  method CheckCitations(log: Log) returns (ok: bool)
    ensures ok <==> RulingsCite(log)
  {
    ok := true;
    for i := 0 to |log|
      invariant ok <==> RulingsCite(log[..i])
    {
      assert log[..i+1] == log[..i] + [log[i]];
      if log[i].event.RulingSigned? && !Cites(log[i].event.signed.body.citations) { ok := false; }
    }
    assert log[..|log|] == log;
  }

  datatype RevealChecks = NonceError | Reveals(accepted: bool, rejected: bool)

  /** `_check_reveals`: the second pass, which raises at the first malformed nonce. */
  method CheckReveals(c: Crypto, log: Log, digests: map<nat, Bytes>) returns (r: RevealChecks)
    ensures r == NonceError <==> Raises(log)
    ensures r.Reveals? ==> (r.accepted <==> AcceptedMatch(c, log, digests)) && (r.rejected <==> RejectedMismatch(c, log, digests))
  {
    var accepted, rejected := true, true;
    for i := 0 to |log|
      invariant !Raises(log[..i])
      invariant (accepted <==> AcceptedMatch(c, log[..i], digests)) && (rejected <==> RejectedMismatch(c, log[..i], digests))
    {
      assert log[..i+1] == log[..i] + [log[i]];
      assert log[i] in log;
      match log[i].event
      case RevealOk(m, _, _, p, nonce) =>
        if CommitmentDigest(c, p, nonce).None? { return NonceError; }
        if !Digested(c, digests, m, p, nonce) { accepted := false; }
      case RevealReject(m, _, p, nonce, _) =>
        if CommitmentDigest(c, p, nonce).None? { return NonceError; }
        if Digested(c, digests, m, p, nonce) { rejected := false; }
      case _ =>
    }
    assert log[..|log|] == log;
    r := Reveals(accepted, rejected);
  }

  // ---------------------------------------------------------------- the report

  datatype CheckName = ChainCheck | ReplayCheck | CapacityCheck | ExclusivityCheck | CitationCheck | AcceptedCheck | RejectedCheck | DomainNamed(name: string)

  /** A check of the caller's own, over all the entries. */
  type DomainCheck = seq<LogEntry> -> (string, bool)

  /** The mutable report: `ok` is the exit gate. */
  class VerifyReport {
    var ok: bool
    var checks: seq<(CheckName, bool)>
    var manifest: Manifest
    var manifestHash: Bytes
    var chainLength: nat

    ghost predicate Valid()
      reads this
    {
      ok <==> forall x :: x in checks ==> x.1
    }

    constructor (length: nat)
      ensures Valid() && ok && checks == [] && chainLength == length
    {
      ok, checks, manifest, manifestHash, chainLength := true, [], map[], [], length;
    }

    method Add(name: CheckName, passed: bool)
      requires Valid()
      modifies this`ok, this`checks
      ensures Valid() && checks == old(checks) + [(name, passed)] && ok == (old(ok) && passed)
    {
      checks := checks + [(name, passed)];
      if !passed { ok := false; }
    }

    method AddAll(results: seq<(CheckName, bool)>)
      requires Valid()
      modifies this`ok, this`checks
      ensures Valid() && checks == old(checks) + results
      ensures ok <==> old(ok) && forall x :: x in results ==> x.1
    {
      for i := 0 to |results|
        invariant Valid() && checks == old(checks) + results[..i]
        invariant ok <==> old(ok) && forall x :: x in results[..i] ==> x.1
      {
        assert results[..i+1] == results[..i] + [results[i]];
        Add(results[i].0, results[i].1);
      }
      assert results[..|results|] == results;
    }

    method Failures() returns (f: seq<(CheckName, bool)>)
      requires Valid()
      ensures forall x :: x in f <==> x in checks && !x.1
      ensures ok <==> f == []
    {
      f := [];
      for i := 0 to |checks|
        invariant forall x :: x in f <==> x in checks[..i] && !x.1
      {
        assert checks[..i+1] == checks[..i] + [checks[i]];
        if !checks[i].1 { f := f + [checks[i]]; }
      }
      assert checks[..|checks|] == checks;
      if f != [] { assert f[0] in f; }
      if !ok { var x :| x in checks && !x.1; assert x in f; }
    }
  }

  /** I1 against the registered capacities and groups, then I3. */
  method CheckManifest(log: Log, m: Manifest, rs: map<Name, Resource>) returns (within: bool, clear: bool, cites: bool)
    requires m == Replayed(log) && rs == ReadAll(BLANK, log).resources
    ensures within <==> WithinCapacity(Replayed(log), ReadAll(BLANK, log).resources)
    ensures clear <==> NoClash(Replayed(log), ReadAll(BLANK, log).resources)
    ensures cites <==> RulingsCite(log)
  {
    within := CheckCapacity(m, rs);
    clear := CheckExclusivity(m, rs);
    cites := CheckCitations(log);
  }

  predicate AllPassed(results: seq<(CheckName, bool)>) {
    forall x :: x in results ==> x.1
  }

  /** Every check in order; the two reveal checks are missing when the reveal check raises. */
  method RunChecks(c: Crypto, rows: seq<LogEntry>) returns (raised: bool, m: Manifest, results: seq<(CheckName, bool)>)
    ensures raised <==> Raises(Stamps(rows))
    ensures m == Replayed(Stamps(rows))
    ensures !raised ==> (AllPassed(results) <==> Passes(c, rows))
  {
    hide ChainOk, Replayed, WithinCapacity, NoClash, RulingsCite, AcceptedMatch, RejectedMismatch, Raises, ReadAll, AllPassed;
    var log := Stamps(rows);
    var verdict := VerifyChain(c, rows);
    m := ReplayManifest(log);
    var rec := FindManifest(log);
    var rs, digests := CollectBooks(log);
    var within, clear, cites := CheckManifest(log, m, rs);
    var outcome := CheckReveals(c, log, digests);
    raised := outcome.NonceError?;
    var replay := rec.Some? && m == rec.value.manifest && ManifestHash(c, m) == rec.value.hash;
    assert replay <==> ReplayMatches(c, log);
    hide ReplayMatches;
    results := [(ChainCheck, verdict == Intact), (ReplayCheck, replay), (CapacityCheck, within),
                (ExclusivityCheck, clear), (CitationCheck, cites)];
    if !raised {
      results := results + [(AcceptedCheck, outcome.accepted), (RejectedCheck, outcome.rejected)];
      AllSeven(results);
    }
  }

  /** `verify_log`: raises on a malformed nonce, and otherwise reports ok exactly when every invariant holds. */
  method VerifyLog(c: Crypto, rows: seq<LogEntry>, domain: seq<DomainCheck>) returns (raised: bool, report: VerifyReport)
    ensures fresh(report) && report.Valid()
    ensures raised <==> Raises(Stamps(rows))
    ensures !raised ==> (report.ok <==> Passes(c, rows) && forall i :: 0 <= i < |domain| ==> domain[i](rows).1)
    ensures report.manifest == Replayed(Stamps(rows)) && report.chainLength == |rows|
  {
    hide Passes, Raises, Replayed;
    report := new VerifyReport(|rows|);
    var m, results;
    raised, m, results := RunChecks(c, rows);
    report.manifest, report.manifestHash := m, ManifestHash(c, m);
    report.AddAll(results);
    if raised { return; }
    for i := 0 to |domain|
      invariant fresh(report) && report.Valid() && report.manifest == m && report.chainLength == |rows|
      invariant report.ok <==> Passes(c, rows) && forall k :: 0 <= k < i ==> domain[k](rows).1
    {
      var (name, passed) := domain[i](rows);
      report.Add(DomainNamed(name), passed);
    }
  }

  lemma AllSeven(r: seq<(CheckName, bool)>)
    requires |r| == 7
    ensures AllPassed(r) <==> r[0].1 && r[1].1 && r[2].1 && r[3].1 && r[4].1 && r[5].1 && r[6].1
  {
    assert r == [r[0], r[1], r[2], r[3], r[4], r[5], r[6]];
  }
}
