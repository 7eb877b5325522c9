/** What a ruling does to the open contests: who is paid, who loses the stake, who gets it back, and who waits on. */
module SettlementFacts {
  import opened Order
  import opened Schemas
  import opened Rounds
  import opened RoundFacts
  import opened RunTheorems
  import L = Ledger
  import B = Bank

  /** The ruling acts on the claim, or the deadlock it answers is about it. */
  predicate Touches(r: RulingFields, dl: Option<Deadlock>, target: nat) {
    (exists op :: op in r.ops && op.claim == target) || (dl.Some? && target in dl.value.claims)
  }

  /** How an open contest ends: won, lost, refunded, or not yet. */
  function Ending(r: RulingFields, dl: Option<Deadlock>, x: B.Contest): B.ContestStatus {
    if x.agent in r.winners then B.Won
    else if x.agent in r.losers then B.Lost
    else if Touches(r, dl, x.target) then B.Refunded
    else B.Open
  }

  /** The line that tells a contest's end. */
  function Ended(b: B.State, id: nat, ending: B.ContestStatus): Event
    requires id in b.contests
  {
    var x := b.contests[id];
    match ending
    case Won => ContestSettled(id, x.agent, true, b.cost + b.premium, 0)
    case Lost => ContestSettled(id, x.agent, false, 0, b.cost)
    case _ => ContestVoid(id, x.agent, b.cost)
  }

  /** From `b` to `c` the contests in `ids` that were open have ended as the ruling says, and no other is different. */
  ghost predicate EndedAmong(b: B.State, c: B.State, ids: set<nat>, r: RulingFields, dl: Option<Deadlock>) {
    && c.contests.Keys == b.contests.Keys && c.cost == b.cost && c.premium == b.premium && c.last == b.last && c.balances.Keys == b.balances.Keys
    && forall id :: id in b.contests ==>
         c.contests[id] == if id in ids && B.IsOpen(b, id) then b.contests[id].(status := Ending(r, dl, b.contests[id])) else b.contests[id]
  }

  ghost predicate ToldAmong(b: B.State, log: Log, ids: set<nat>, r: RulingFields, dl: Option<Deadlock>, round: nat) {
    forall id :: id in ids && B.IsOpen(b, id) && Ending(r, dl, b.contests[id]) != B.Open
      ==> Stamped(round, Ended(b, id, Ending(r, dl, b.contests[id]))) in log
  }

  function IdsOf(xs: seq<ContestView>): set<nat> {
    set x | x in xs :: x.id
  }

  /** Views of open contests, each once, whose owners have accounts and whose stakes are the bank's. */
  ghost predicate Payable(b: B.State, xs: seq<ContestView>) {
    && (forall x :: x in xs ==> Shows(b, x)) && (forall i, j :: 0 <= i < j < |xs| ==> xs[i].id != xs[j].id)
    && forall id :: id in b.contests ==> b.contests[id].agent in b.balances && b.contests[id].cost == b.cost
  }

  lemma TouchedMeans(r: RulingFields, dl: Option<Deadlock>, target: nat)
    ensures target in TouchedBy(r, dl) <==> Touches(r, dl, target)
  {}

  /** One contest. */
  lemma OneEnds(b: B.State, x: ContestView, r: RulingFields, dl: Option<Deadlock>, round: nat)
    requires Payable(b, [x])
    ensures var st := Verdict(b, x, r, TouchedBy(r, dl));
            && st.out == B.Done && EndedAmong(b, st.state, {x.id}, r, dl) && ToldAmong(b, Stamp(round, st.events), {x.id}, r, dl, round)
  {
    TouchedMeans(r, dl, x.target);
    assert x in [x] && Shows(b, x);
    hide Touches, TouchedBy;
    var st := Verdict(b, x, r, TouchedBy(r, dl));
    if st.events != [] { assert Stamp(round, st.events)[0] == Stamped(round, st.events[0]); }
    hide Stamp;
  }

  lemma RestPayable(b: B.State, c: B.State, xs: seq<ContestView>, r: RulingFields, dl: Option<Deadlock>)
    requires xs != [] && Payable(b, xs) && EndedAmong(b, c, {xs[0].id}, r, dl)
    ensures Payable(b, [xs[0]]) && Payable(c, xs[1..])
  {
    hide Ending;
    assert xs[0] in xs;
    forall x | x in xs[1..] ensures Shows(c, x) {
      var k :| 1 <= k < |xs| && xs[k] == x;
      assert x in xs && x.id != xs[0].id;
    }
  }

  lemma FirstPayable(b: B.State, xs: seq<ContestView>)
    requires xs != [] && Payable(b, xs)
    ensures Payable(b, [xs[0]])
  {
    assert xs[0] in xs;
  }

  lemma EndedBoth(b: B.State, c: B.State, d: B.State, id: nat, ids: set<nat>, r: RulingFields, dl: Option<Deadlock>)
    requires EndedAmong(b, c, {id}, r, dl) && EndedAmong(c, d, ids, r, dl) && id !in ids
    ensures EndedAmong(b, d, {id} + ids, r, dl)
  {
    hide Ending;
  }

  lemma ToldBoth(b: B.State, c: B.State, id: nat, ids: set<nat>, r: RulingFields, dl: Option<Deadlock>, round: nat, one: Log, log: Log)
    requires EndedAmong(b, c, {id}, r, dl) && ToldAmong(b, one, {id}, r, dl, round) && ToldAmong(c, log, ids, r, dl, round) && id !in ids
    requires forall e :: e in one ==> e in log
    ensures ToldAmong(b, log, {id} + ids, r, dl, round)
  {
    hide Ending;
  }

  lemma {:induction false} AllEnd(w: World, xs: seq<ContestView>, r: RulingFields, dl: Option<Deadlock>, round: nat)
    requires Payable(w.bank, xs)
    ensures var out := SettleAll(w, xs, r, TouchedBy(r, dl), round);
            && !out.aborted && out.world == w.(bank := out.world.bank, log := out.world.log) && w.log <= out.world.log
            && EndedAmong(w.bank, out.world.bank, IdsOf(xs), r, dl) && ToldAmong(w.bank, out.world.log, IdsOf(xs), r, dl, round)
    decreases |xs|
  {
    hide Verdict, Payable, EndedAmong, ToldAmong, TouchedBy, Stamp;
    if xs == [] {
      NoneEnd(w.bank, w.log, r, dl, round);
    } else {
      FirstPayable(w.bank, xs);
      OneEnds(w.bank, xs[0], r, dl, round);
      var st := Verdict(w.bank, xs[0], r, TouchedBy(r, dl));
      var x := OnBank(w, st, round);
      RestPayable(w.bank, x.bank, xs, r, dl);
      AllEnd(x, xs[1..], r, dl, round);
      var out := SettleAll(x, xs[1..], r, TouchedBy(r, dl), round);
      IdsSplit(w.bank, xs);
      assert x.log == w.log + Stamp(round, st.events);
      EndedBoth(w.bank, x.bank, out.world.bank, xs[0].id, IdsOf(xs[1..]), r, dl);
      ToldBoth(w.bank, x.bank, xs[0].id, IdsOf(xs[1..]), r, dl, round, Stamp(round, st.events), out.world.log);
    }
  }

  lemma NoneEnd(b: B.State, log: Log, r: RulingFields, dl: Option<Deadlock>, round: nat)
    ensures EndedAmong(b, b, IdsOf([]), r, dl) && ToldAmong(b, log, IdsOf([]), r, dl, round)
  {}

  lemma IdsSplit(b: B.State, xs: seq<ContestView>)
    requires xs != [] && Payable(b, xs)
    ensures IdsOf(xs) == {xs[0].id} + IdsOf(xs[1..]) && xs[0].id !in IdsOf(xs[1..])
  {
    assert forall x :: x in xs <==> x == xs[0] || x in xs[1..];
    forall x | x in xs[1..] ensures x.id != xs[0].id {
      var k :| 1 <= k < |xs| && xs[k] == x;
    }
  }

  // ---------------------------------------------------------------- all open contests

  /** Every contest that was open has ended as the ruling says, and no other is different. */
  ghost predicate EndedAll(b: B.State, c: B.State, r: RulingFields, dl: Option<Deadlock>) {
    EndedAmong(b, c, b.contests.Keys, r, dl)
  }

  /** The agent's open contests that end one way. */
  ghost function Endings(b: B.State, r: RulingFields, dl: Option<Deadlock>, a: Name, ending: B.ContestStatus): set<nat> {
    set id | id in b.contests && B.IsOpen(b, id) && b.contests[id].agent == a && Ending(r, dl, b.contests[id]) == ending
  }

  /** Stake and premium for each contest won, the stake for each one refunded, and nothing for the others. */
  ghost predicate PaidOut(b: B.State, c: B.State, r: RulingFields, dl: Option<Deadlock>) {
    c.balances.Keys == b.balances.Keys && forall a :: a in b.balances ==>
      c.balances[a] == b.balances[a] + (b.cost + b.premium) * |Endings(b, r, dl, a, B.Won)| + b.cost * |Endings(b, r, dl, a, B.Refunded)|
  }

  lemma PayableAll(b: B.State, budgets: map<Name, nat>)
    requires B.Kept(b, budgets)
    ensures Payable(b, ContestsView(b)) && forall id :: B.IsOpen(b, id) ==> id in IdsOf(ContestsView(b))
  {
    hide B.Single, B.Conserved, B.Balanced;
    ViewCovers(b);
    hide ContestsView;
    forall id | B.IsOpen(b, id) ensures id in IdsOf(ContestsView(b)) {
      var x :| x in ContestsView(b) && x.id == id;
    }
  }

  lemma EndedWide(b: B.State, c: B.State, ids: set<nat>, r: RulingFields, dl: Option<Deadlock>)
    requires EndedAmong(b, c, ids, r, dl) && forall id :: B.IsOpen(b, id) ==> id in ids
    ensures EndedAll(b, c, r, dl)
  {
    hide Ending;
  }

  lemma DisjointCards<T>(s: set<T>, a: set<T>, b: set<T>)
    requires s == a + b && a !! b
    ensures |s| == |a| + |b|
  {}

  /** How the agent's contests are counted before and after. */
  lemma Recount(b: B.State, c: B.State, r: RulingFields, dl: Option<Deadlock>, a: Name)
    requires EndedAll(b, c, r, dl)
    ensures B.Count(c.contests, a, B.Won) == B.Count(b.contests, a, B.Won) + |Endings(b, r, dl, a, B.Won)|
    ensures B.Count(c.contests, a, B.Lost) == B.Count(b.contests, a, B.Lost) + |Endings(b, r, dl, a, B.Lost)|
    ensures B.Count(b.contests, a, B.Open)
         == |Endings(b, r, dl, a, B.Won)| + |Endings(b, r, dl, a, B.Lost)| + |Endings(b, r, dl, a, B.Refunded)| + B.Count(c.contests, a, B.Open)
  {
    hide *;
    var won, lost, back := Endings(b, r, dl, a, B.Won), Endings(b, r, dl, a, B.Lost), Endings(b, r, dl, a, B.Refunded);
    Joins(b, c, r, dl, a, B.Won);
    Joins(b, c, r, dl, a, B.Lost);
    Apart(b, r, dl, a);
    DisjointCards(B.Of(c.contests, a, B.Won), B.Of(b.contests, a, B.Won), won);
    DisjointCards(B.Of(c.contests, a, B.Lost), B.Of(b.contests, a, B.Lost), lost);
    DisjointCards(won + lost, won, lost);
    DisjointCards(won + lost + back, won + lost, back);
    EndingKinds(b, c, r, dl, a);
    DisjointCards(B.Of(b.contests, a, B.Open), won + lost + back, B.Of(c.contests, a, B.Open));
    Counts(b, a);
    Counts(c, a);
  }

  lemma Counts(b: B.State, a: Name)
    ensures forall s :: B.Count(b.contests, a, s) == |B.Of(b.contests, a, s)|
  {}

  lemma Joins(b: B.State, c: B.State, r: RulingFields, dl: Option<Deadlock>, a: Name, s: B.ContestStatus)
    requires EndedAll(b, c, r, dl) && s != B.Open
    ensures B.Of(c.contests, a, s) == B.Of(b.contests, a, s) + Endings(b, r, dl, a, s) && B.Of(b.contests, a, s) !! Endings(b, r, dl, a, s)
  {
    hide Ending;
  }

  lemma Apart(b: B.State, r: RulingFields, dl: Option<Deadlock>, a: Name)
    ensures var (won, lost, back) := (Endings(b, r, dl, a, B.Won), Endings(b, r, dl, a, B.Lost), Endings(b, r, dl, a, B.Refunded));
            won !! lost && (won + lost) !! back
  {
    hide Ending;
  }

  lemma EndingKinds(b: B.State, c: B.State, r: RulingFields, dl: Option<Deadlock>, a: Name)
    requires EndedAll(b, c, r, dl)
    ensures var back := Endings(b, r, dl, a, B.Won) + Endings(b, r, dl, a, B.Lost) + Endings(b, r, dl, a, B.Refunded);
            B.Of(b.contests, a, B.Open) == back + B.Of(c.contests, a, B.Open) && back !! B.Of(c.contests, a, B.Open)
  {
    hide Ending;
  }

  /** What the books require of the balances is what is paid out. */
  lemma PaidFromBooks(b: B.State, c: B.State, budgets: map<Name, nat>, r: RulingFields, dl: Option<Deadlock>)
    requires B.Kept(b, budgets) && B.Kept(c, budgets) && EndedAll(b, c, r, dl)
    ensures PaidOut(b, c, r, dl)
  {
    hide B.Kept, B.Count, Endings, EndedAll;
    KeysKept(b, c, budgets, r, dl);
    forall a | a in b.balances
      ensures c.balances[a] == b.balances[a] + (b.cost + b.premium) * |Endings(b, r, dl, a, B.Won)| + b.cost * |Endings(b, r, dl, a, B.Refunded)|
    {
      B.KeptBalanced(b, budgets, a);
      B.KeptBalanced(c, budgets, a);
      Recount(b, c, r, dl, a);
      Growth(b.cost, b.premium, B.Count(b.contests, a, B.Won), B.Count(b.contests, a, B.Lost), B.Count(c.contests, a, B.Open),
             |Endings(b, r, dl, a, B.Won)|, |Endings(b, r, dl, a, B.Lost)|, |Endings(b, r, dl, a, B.Refunded)|);
    }
  }

  lemma KeysKept(b: B.State, c: B.State, budgets: map<Name, nat>, r: RulingFields, dl: Option<Deadlock>)
    requires B.Kept(b, budgets) && EndedAll(b, c, r, dl)
    ensures b.balances.Keys == budgets.Keys && c.balances.Keys == b.balances.Keys && c.cost == b.cost && c.premium == b.premium
  {
    hide Ending, B.Single, B.Conserved, B.Balanced;
  }

  lemma Growth(cost: nat, premium: nat, won: nat, lost: nat, open: nat, w: nat, l: nat, back: nat)
    ensures premium * (won + w) - cost * (open + (lost + l))
         == premium * won - cost * ((w + l + back + open) + lost) + (cost + premium) * w + cost * back
  {}

  // ---------------------------------------------------------------- a ruling

  lemma {:induction false} OpsKeepBank(w: World, ops: seq<RulingOp>, ruling: nat, round: nat)
    ensures var x := ApplyOps(w, ops, ruling, round).world;
            x.bank == w.bank && x.detector == w.detector && x.rulings == w.rulings && x.rulingSeq == w.rulingSeq
            && x.positions == w.positions && x.deadlocks == w.deadlocks && x.rejections == w.rejections && w.log <= x.log
    decreases |ops|
  {
    hide L.RuleOp, Stamp;
    if ops != [] {
      var st := L.RuleOp(w.ledger, ops[0], ruling, round);
      if st.out == L.Ok {
        OpsKeepBank(OnLedger(w, st, round), ops[1..], ruling, round);
      } else if st.out == L.LedgerError {
        OpsKeepBank(Say(OnLedger(w, st, round), round, [OpRejected(ruling, ops[0])]), ops[1..], ruling, round);
      }
    }
  }

  /**
   * A ruling on a healthy world settles every open contest: won if its agent is a winner, otherwise lost if a loser,
   * otherwise refunded if the ruling or the deadlock touches its target, and otherwise left open. Balances grow by just
   * what that pays, and each end is logged.
   */
  lemma SettlesAll(c: Crypto, terms: Terms, w: World, r: RulingFields, dl: Option<Deadlock>, round: nat)
    requires Healthy(c, terms, w)
    ensures var out := SettleAll(w, ContestsView(w.bank), r, TouchedBy(r, dl), round);
            && !out.aborted && out.world == w.(bank := out.world.bank, log := out.world.log) && w.log <= out.world.log
            && EndedAll(w.bank, out.world.bank, r, dl) && PaidOut(w.bank, out.world.bank, r, dl)
            && ToldAmong(w.bank, out.world.log, IdsOf(ContestsView(w.bank)), r, dl, round)
  {
    hide Healthy, SettleAll, ContestsView, Payable, EndedAmong, ToldAmong, TouchedBy, B.Kept, PaidOut;
    var xs := ContestsView(w.bank);
    HealthyParts(c, terms, w);
    PayableAll(w.bank, terms.budgets);
    AllEnd(w, xs, r, dl, round);
    FineSettle(c, terms, w, xs, r, TouchedBy(r, dl), round);
    var x := SettleAll(w, xs, r, TouchedBy(r, dl), round).world;
    FineHealthy(c, terms, w, x);
    HealthyParts(c, terms, x);
    EndedWide(w.bank, x.bank, IdsOf(xs), r, dl);
    hide IdsOf;
    PaidFromBooks(w.bank, x.bank, terms.budgets, r, dl);
  }
}
