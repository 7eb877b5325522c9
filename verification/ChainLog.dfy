/** The hash-chained decision log: building it, checking it, and why its head hash pins it down. */
module ChainLog {
  import opened Order
  import opened Schemas

  datatype LogEntry = LogEntry(seqno: nat, stamp: Stamped, prev: Bytes, hash: Bytes)

  function Message(c: Crypto, prev: Bytes, seqno: nat, stamp: Stamped): Bytes {
    prev + c.entry(Envelope(seqno, stamp))
  }

  function EntryHash(c: Crypto, prev: Bytes, seqno: nat, stamp: Stamped): Bytes {
    c.hash(Message(c, prev, seqno, stamp))
  }

  function HeadOf(rows: seq<LogEntry>): Bytes {
    if rows == [] then [] else rows[|rows|-1].hash
  }

  function NextEntry(c: Crypto, rows: seq<LogEntry>, stamp: Stamped): LogEntry {
    LogEntry(|rows|, stamp, HeadOf(rows), EntryHash(c, HeadOf(rows), |rows|, stamp))
  }

  /** The rows a log holds after the given lines were appended to it, in order. */
  function Chain(c: Crypto, log: Log): (rows: seq<LogEntry>)
    ensures |rows| == |log|
  {
    if log == [] then []
    else
      var rows := Chain(c, log[..|log|-1]);
      rows + [NextEntry(c, rows, log[|log|-1])]
  }

  function Stamps(rows: seq<LogEntry>): (log: Log)
    ensures |log| == |rows| && forall i :: 0 <= i < |rows| ==> log[i] == rows[i].stamp
  {
    seq(|rows|, i requires 0 <= i < |rows| => rows[i].stamp)
  }

  // ---------------------------------------------------------------- checking a chain

  function PrevHash(rows: seq<LogEntry>, i: nat): Bytes
    requires i < |rows|
  {
    if i == 0 then [] else rows[i-1].hash
  }

  /** The four tests `verify_chain` makes of row `i`. */
  predicate RowOk(c: Crypto, rows: seq<LogEntry>, i: nat)
    requires i < |rows|
  {
    var e := rows[i];
    && e.seqno == i
    && (i == 0 ==> e.stamp.event.Genesis?)
    && e.prev == PrevHash(rows, i)
    && e.hash == EntryHash(c, e.prev, e.seqno, e.stamp)
  }

  predicate ChainOk(c: Crypto, rows: seq<LogEntry>) {
    rows != [] && forall i :: 0 <= i < |rows| ==> RowOk(c, rows, i)
  }

  datatype Verdict = Intact | EmptyChain | SequenceGap(at: nat) | NotGenesis | BrokenLink(at: nat) | HashMismatch(at: nat)

  /** `verify_chain`: re-derives the chain row by row, and names the first row that fails and why. */
  method VerifyChain(c: Crypto, rows: seq<LogEntry>) returns (v: Verdict)
    ensures v == Intact <==> ChainOk(c, rows)
    ensures v == EmptyChain <==> rows == []
    ensures v.SequenceGap? ==> v.at < |rows| && rows[v.at].seqno != v.at && forall j :: 0 <= j < v.at ==> RowOk(c, rows, j)
    ensures v == NotGenesis ==> rows != [] && rows[0].seqno == 0 && !rows[0].stamp.event.Genesis?
    ensures v.BrokenLink? ==> v.at < |rows| && rows[v.at].prev != PrevHash(rows, v.at) && forall j :: 0 <= j < v.at ==> RowOk(c, rows, j)
    ensures v.HashMismatch? ==>
              && v.at < |rows| && (forall j :: 0 <= j < v.at ==> RowOk(c, rows, j))
              && rows[v.at].hash != EntryHash(c, rows[v.at].prev, v.at, rows[v.at].stamp)
  {
    var prevHash, expected := [], 0;
    for k := 0 to |rows|
      invariant expected == k && prevHash == (if k == 0 then [] else rows[k-1].hash)
      invariant forall j :: 0 <= j < k ==> RowOk(c, rows, j)
    {
      var e := rows[k];
      ghost var fine := RowOk(c, rows, k);
      if e.seqno != expected { return SequenceGap(expected); }
      if e.seqno == 0 && !e.stamp.event.Genesis? { return NotGenesis; }
      if e.prev != prevHash { return BrokenLink(expected); }
      if EntryHash(c, e.prev, e.seqno, e.stamp) != e.hash { return HashMismatch(expected); }
      prevHash := e.hash;
      expected := expected + 1;
    }
    v := if rows == [] then EmptyChain else Intact;
  }

  // ---------------------------------------------------------------- what is built passes

  lemma ChainStep(c: Crypto, log: Log, stamp: Stamped)
    ensures Chain(c, log + [stamp]) == Chain(c, log) + [NextEntry(c, Chain(c, log), stamp)]
  {
    assert (log + [stamp])[..|log|] == log;
  }

  lemma StampsMore(rows: seq<LogEntry>, e: LogEntry)
    ensures Stamps(rows + [e]) == Stamps(rows) + [e.stamp]
  {}

  lemma NextStamp(c: Crypto, rows: seq<LogEntry>, stamp: Stamped)
    ensures NextEntry(c, rows, stamp).stamp == stamp
  {
    hide EntryHash;
  }

  /** Rows that are a chain stay one with the next entry at the end. */
  lemma RowsGrow(c: Crypto, rows: seq<LogEntry>, stamp: Stamped)
    requires rows == Chain(c, Stamps(rows))
    ensures var more := rows + [NextEntry(c, rows, stamp)];
            Stamps(more) == Stamps(rows) + [stamp] && more == Chain(c, Stamps(more))
  {
    hide *;
    ChainStep(c, Stamps(rows), stamp);
    NextStamp(c, rows, stamp);
    StampsMore(rows, NextEntry(c, rows, stamp));
  }

  lemma {:induction false} ChainStamps(c: Crypto, log: Log)
    ensures Stamps(Chain(c, log)) == log
    decreases |log|
  {
    if log == [] {
      NoRowsNoStamps(c);
    } else {
      hide *;
      var rest, last := log[..|log|-1], log[|log|-1];
      ChainStamps(c, rest);
      ChainStep(c, rest, last);
      NextStamp(c, Chain(c, rest), last);
      StampsMore(Chain(c, rest), NextEntry(c, Chain(c, rest), last));
      assert log == rest + [last];
    }
  }

  lemma NoRowsNoStamps(c: Crypto)
    ensures Stamps(Chain(c, [])) == []
  {}

  lemma {:induction false} ChainRows(c: Crypto, log: Log, i: nat)
    requires i < |log| && log[0].event.Genesis?
    ensures RowOk(c, Chain(c, log), i)
  {
    if i < |log| - 1 {
      ChainRows(c, log[..|log|-1], i);
    } else {
      var rows := Chain(c, log[..|log|-1]);
      assert Chain(c, log)[..|log|-1] == rows;
    }
  }

  /** Every log that opens with its genesis entry verifies, however it was extended. */
  lemma BuiltChainVerifies(c: Crypto, log: Log)
    requires log != [] && log[0].event.Genesis?
    ensures ChainOk(c, Chain(c, log)) && Stamps(Chain(c, log)) == log
  {
    ChainStamps(c, log);
    forall i | 0 <= i < |log| ensures RowOk(c, Chain(c, log), i) { ChainRows(c, log, i); }
  }

  // ---------------------------------------------------------------- what a head hash pins down

  const OPEN_BRACE: byte := 123

  /** Canonical envelopes are JSON objects: they start with a brace, and different ones differ. */
  ghost predicate Canonical(c: Crypto) {
    && (forall e :: c.entry(e) != [] && c.entry(e)[0] == OPEN_BRACE)
    && (forall e, f :: c.entry(e) == c.entry(f) ==> e == f)
  }

  /** Digests are hexadecimal text; all the proof needs is that no brace is among them. */
  ghost predicate HexDigests(c: Crypto) {
    forall m :: OPEN_BRACE !in c.hash(m)
  }

  /** Everything hashed to build the rows. */
  function Messages(c: Crypto, rows: seq<LogEntry>): set<Bytes> {
    set i | 0 <= i < |rows| :: Message(c, rows[i].prev, rows[i].seqno, rows[i].stamp)
  }

  ghost predicate CollisionFree(c: Crypto, ms: set<Bytes>) {
    forall x, y :: x in ms && y in ms && c.hash(x) == c.hash(y) ==> x == y
  }

  /** The brace marks where the previous hash ends, so a message splits in one way only. */
  lemma MessageUnambiguous(p: Bytes, e: Bytes, q: Bytes, f: Bytes)
    requires OPEN_BRACE !in p && OPEN_BRACE !in q && e != [] && f != [] && e[0] == OPEN_BRACE && f[0] == OPEN_BRACE
    requires p + e == q + f
    ensures p == q && e == f
  {
    var m := p + e;
    assert m[|p|] == OPEN_BRACE && (q + f)[|q|] == OPEN_BRACE;
    assert forall i :: 0 <= i < |p| ==> p[i] == m[i];
    assert forall i :: 0 <= i < |q| ==> q[i] == m[i];
    assert p == m[..|p|] && q == m[..|q|] && e == m[|p|..] && f == m[|q|..];
  }

  lemma PrevIsHex(c: Crypto, rows: seq<LogEntry>, i: nat)
    requires ChainOk(c, rows) && HexDigests(c) && i < |rows|
    ensures OPEN_BRACE !in rows[i].prev
  {
    assert RowOk(c, rows, i);
    if i > 0 { assert RowOk(c, rows, i-1); }
  }

  /** Two verifying chains with the same last hash end in the same row. */
  lemma SameLastRow(c: Crypto, a: seq<LogEntry>, b: seq<LogEntry>)
    requires Canonical(c) && HexDigests(c) && ChainOk(c, a) && ChainOk(c, b) && HeadOf(a) == HeadOf(b)
    requires CollisionFree(c, Messages(c, a) + Messages(c, b))
    ensures |a| == |b| && a != [] && a[|a|-1] == b[|b|-1]
  {
    var x, y := a[|a|-1], b[|b|-1];
    assert RowOk(c, a, |a|-1) && RowOk(c, b, |b|-1);
    PrevIsHex(c, a, |a|-1);
    PrevIsHex(c, b, |b|-1);
    var mx, my := Message(c, x.prev, x.seqno, x.stamp), Message(c, y.prev, y.seqno, y.stamp);
    assert mx in Messages(c, a) && my in Messages(c, b);
    MessageUnambiguous(x.prev, c.entry(Envelope(x.seqno, x.stamp)), y.prev, c.entry(Envelope(y.seqno, y.stamp)));
  }

  lemma PrefixOk(c: Crypto, a: seq<LogEntry>)
    requires ChainOk(c, a) && |a| > 1
    ensures ChainOk(c, a[..|a|-1]) && HeadOf(a[..|a|-1]) == a[|a|-1].prev
    ensures Messages(c, a[..|a|-1]) <= Messages(c, a)
  {
    var b := a[..|a|-1];
    forall i | 0 <= i < |b| ensures RowOk(c, b, i) { assert RowOk(c, a, i); }
    assert RowOk(c, a, |a|-1);
    forall m | m in Messages(c, b) ensures m in Messages(c, a) {
      var i :| 0 <= i < |b| && m == Message(c, b[i].prev, b[i].seqno, b[i].stamp);
      assert m == Message(c, a[i].prev, a[i].seqno, a[i].stamp);
    }
  }

  lemma CollisionFreeSub(c: Crypto, ms: set<Bytes>, ns: set<Bytes>)
    requires CollisionFree(c, ms) && ns <= ms
    ensures CollisionFree(c, ns)
  {}

  /** Unless one of the hashed messages collides with another, logs with the same head hash are equal entry by entry. */
  lemma {:induction false} HeadPinsLog(c: Crypto, a: seq<LogEntry>, b: seq<LogEntry>)
    requires Canonical(c) && HexDigests(c) && ChainOk(c, a) && ChainOk(c, b) && HeadOf(a) == HeadOf(b)
    requires CollisionFree(c, Messages(c, a) + Messages(c, b))
    ensures a == b
    decreases |a|
  {
    hide Canonical, HexDigests, ChainOk, Messages, CollisionFree, HeadOf;
    SameLastRow(c, a, b);
    if |a| > 1 {
      PrefixOk(c, a);
      PrefixOk(c, b);
      CollisionFreeSub(c, Messages(c, a) + Messages(c, b), Messages(c, a[..|a|-1]) + Messages(c, b[..|b|-1]));
      HeadPinsLog(c, a[..|a|-1], b[..|b|-1]);
    }
    assert a == a[..|a|-1] + [a[|a|-1]] && b == b[..|b|-1] + [b[|b|-1]];
  }

  // ---------------------------------------------------------------- sealed bids

  /** With 16-byte nonces a digest opens to one claim and one nonce only, unless those two messages collide. */
  lemma CommitmentBinds(c: Crypto, p: Proposal, n: Bytes, q: Proposal, m: Bytes, digest: Bytes)
    requires forall x, y :: c.claim(x) == c.claim(y) ==> x == y
    requires VerifyCommitment(c, p, n, digest) && VerifyCommitment(c, q, m, digest)
    requires CollisionFree(c, {c.claim(p) + n, c.claim(q) + m})
    ensures p == q && n == m
  {
    var x, y := c.claim(p) + n, c.claim(q) + m;
    assert x == y;
    assert |c.claim(p)| == |c.claim(q)|;
    assert c.claim(p) == x[..|c.claim(p)|] && c.claim(q) == y[..|c.claim(q)|];
    assert n == x[|c.claim(p)|..] && m == y[|c.claim(q)|..];
  }

  // ---------------------------------------------------------------- the log object

  /** Append-only: the stored rows, and the in-memory sequence number and head hash. */
  class ChainLog {
    const crypto: Crypto
    var rows: seq<LogEntry>
    var last: int
    var head: Bytes

    ghost predicate Valid()
      reads this
    {
      rows == Chain(crypto, Stamps(rows)) && last == |rows| - 1 && head == HeadOf(rows)
    }

    function Lines(): Log
      reads this
    {
      Stamps(rows)
    }

    /** Opens a log over the rows already stored; an empty store starts a new log. */
    constructor (crypto: Crypto, stored: seq<LogEntry>)
      requires stored == Chain(crypto, Stamps(stored))
      ensures Valid() && rows == stored && this.crypto == crypto
    {
      this.crypto := crypto;
      rows := stored;
      last, head := -1, [];
      new;
      if |stored| > 0 {
        ChainRowAt(crypto, Stamps(stored), |stored|-1);
        last, head := stored[|stored|-1].seqno, stored[|stored|-1].hash;
      }
    }

    /** First entry; refused when the chain already has one. */
    method Begin(header: string) returns (ok: bool)
      requires Valid()
      modifies this
      ensures Valid() && ok == (old(Lines()) == [])
      ensures Lines() == old(Lines()) + if ok then [Stamped(0, Genesis(header))] else []
    {
      if last >= 0 { return false; }
      ok := Append(Genesis(header), 0);
    }

    /** Extends the chain; refused before genesis. */
    method Append(event: Event, round: nat) returns (ok: bool)
      requires Valid()
      modifies this
      ensures Valid() && ok == (old(Lines()) != [] || event.Genesis?)
      ensures Lines() == old(Lines()) + if ok then [Stamped(round, event)] else []
      ensures ok ==> rows == old(rows) + [NextEntry(crypto, old(rows), Stamped(round, event))]
    {
      hide Chain, Stamps, EntryHash;
      if last < 0 && !event.Genesis? { return false; }
      var seqno := last + 1;
      var prev := head;
      var h := EntryHash(crypto, prev, seqno, Stamped(round, event));
      RowsGrow(crypto, rows, Stamped(round, event));
      rows := rows + [LogEntry(seqno, Stamped(round, event), prev, h)];
      last, head := seqno, h;
      ok := true;
    }
  }

  lemma {:induction false} ChainRowAt(c: Crypto, log: Log, i: nat)
    requires i < |log|
    ensures Chain(c, log)[i].seqno == i
  {
    if i < |log| - 1 { ChainRowAt(c, log[..|log|-1], i); }
  }
}
