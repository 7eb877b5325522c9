/** The credibility bank: paid contests, their settlement, and the exact accounting they keep. */
module Bank {
  import opened Order
  import opened Schemas

  datatype ContestStatus = Open | Won | Lost | Refunded

  datatype Contest = Contest(agent: Name, target: nat, round: nat, status: ContestStatus, cost: nat, position: Position)

  datatype State = State(
    balances: map<Name, nat>,
    contests: map<nat, Contest>,
    last: nat,
    cost: nat,
    premium: nat)

  datatype Answer = Opened(id: nat) | Declined | Done | CurrencyError

  datatype Step = Step(state: State, events: seq<Event>, out: Answer)

  /** A bank opened over stored tables: stored balances stand, other agents get their budget. */
  function OpenedOver(budgets: map<Name, nat>, cost: nat, premium: nat, balances: map<Name, nat>, contests: Contests): State {
    State(budgets + balances, contests, Highest(contests.Keys), cost, premium)
  }

  /** A fresh bank with the given budgets. */
  function Start(budgets: map<Name, nat>, cost: nat, premium: nat): State {
    State(budgets, map[], 0, cost, premium)
  }

  /** Over empty tables that is a new bank. */
  lemma NothingStored(budgets: map<Name, nat>, cost: nat, premium: nat)
    ensures OpenedOver(budgets, cost, premium, map[], map[]) == Start(budgets, cost, premium)
  {
    assert budgets + map[] == budgets;
  }

  function OpenIds(b: State): (r: seq<nat>)
    ensures NoDup(r) && forall x :: x in r <==> x in b.contests && b.contests[x].status == Open
  {
    NatOrder();
    SortedOf((set x | x in b.contests && b.contests[x].status == Open), NatLe)
  }

  /** The agent's open contest on the target, if there is one. */
  function Duplicates(b: State, agent: Name, target: nat): set<nat> {
    set x | x in b.contests && b.contests[x].status == Open && b.contests[x].agent == agent && b.contests[x].target == target
  }

  function OpenContest(b: State, pos: Position, round: nat): Step {
    if pos.stance != Block || pos.agent !in b.balances then Step(b, [], CurrencyError)
    else if b.balances[pos.agent] < b.cost then Step(b, [ContestDeclined(pos.agent, pos.target)], Declined)
    else if Duplicates(b, pos.agent, pos.target) != {} then
      NatOrder();
      Step(b, [], Opened(Least(Duplicates(b, pos.agent, pos.target), NatLe)))
    else
      var id := b.last + 1;
      Step(b.(last := id,
              balances := b.balances[pos.agent := b.balances[pos.agent] - b.cost],
              contests := b.contests[id := Contest(pos.agent, pos.target, round, Open, b.cost, pos)]),
           [ContestOpened(id, pos.agent, pos.target, b.cost)], Opened(id))
  }

  function Credit(b: State, agent: Name, amount: nat): map<Name, nat> {
    if agent in b.balances then b.balances[agent := b.balances[agent] + amount] else b.balances
  }

  function Close(b: State, id: nat, status: ContestStatus, refund: nat): State
    requires id in b.contests
  {
    b.(balances := Credit(b, b.contests[id].agent, refund), contests := b.contests[id := b.contests[id].(status := status)])
  }

  predicate IsOpen(b: State, id: nat) {
    id in b.contests && b.contests[id].status == Open
  }

  function Settle(b: State, id: nat, won: bool): Step {
    if !IsOpen(b, id) then Step(b, [], CurrencyError)
    else
      var x := b.contests[id];
      var refund := if won then x.cost + b.premium else 0;
      Step(Close(b, id, if won then Won else Lost, refund),
           [ContestSettled(id, x.agent, won, refund, if won then 0 else x.cost)], Done)
  }

  function VoidContest(b: State, id: nat): Step {
    if !IsOpen(b, id) then Step(b, [], CurrencyError)
    else
      var x := b.contests[id];
      Step(Close(b, id, Refunded, x.cost), [ContestVoid(id, x.agent, x.cost)], Done)
  }

  datatype Op = DoOpen(position: Position) | DoSettle(id: nat, won: bool) | DoVoid(id: nat)

  function Do(b: State, op: Op, round: nat): Step {
    match op
    case DoOpen(pos) => OpenContest(b, pos, round)
    case DoSettle(id, won) => Settle(b, id, won)
    case DoVoid(id) => VoidContest(b, id)
  }

  // ---------------------------------------------------------------- accounting

  type Contests = map<nat, Contest>

  function With(cs: Contests, s: ContestStatus): set<nat> {
    set x | x in cs && cs[x].status == s
  }

  function Of(cs: Contests, a: Name, s: ContestStatus): set<nat> {
    set x | x in cs && cs[x].status == s && cs[x].agent == a
  }

  /** The contests of `a` with the status. */
  function Count(cs: Contests, a: Name, s: ContestStatus): nat {
    |Of(cs, a, s)|
  }

  function Total(m: map<Name, nat>): nat
    decreases m.Keys
  {
    if m == map[] then 0
    else
      NameOrder();
      var k := Least(m.Keys, NameLe);
      m[k] + Total(m - {k})
  }

  /** What an agent is owed: its budget, plus premiums won, minus every stake at risk or burned. */
  ghost predicate Balanced(b: State, budgets: map<Name, nat>, a: Name) {
    && a in b.balances && a in budgets
    && b.balances[a] == budgets[a] + b.premium * Count(b.contests, a, Won)
                        - b.cost * (Count(b.contests, a, Open) + Count(b.contests, a, Lost))
  }

  ghost predicate Conserved(b: State, budgets: map<Name, nat>) {
    Total(b.balances) == Total(budgets) + b.premium * |With(b.contests, Won)|
                         - b.cost * (|With(b.contests, Open)| + |With(b.contests, Lost)|)
  }

  /** At most one open contest per agent and target. */
  ghost predicate Single(cs: Contests) {
    forall x, y {:trigger cs[x], cs[y]} :: x in cs && y in cs && Twins(cs[x], cs[y]) ==> x == y
  }

  predicate Twins(x: Contest, y: Contest) {
    x.status == Open && y.status == Open && x.agent == y.agent && x.target == y.target
  }

  ghost predicate Tidy(b: State, budgets: map<Name, nat>) {
    && b.balances.Keys == budgets.Keys
    && forall x :: x in b.contests ==> x <= b.last && b.contests[x].agent in b.balances && b.contests[x].cost == b.cost
  }

  ghost predicate Kept(b: State, budgets: map<Name, nat>) {
    Tidy(b, budgets) && Single(b.contests) && (forall a :: a in budgets ==> Balanced(b, budgets, a)) && Conserved(b, budgets)
  }

  lemma {:induction false} TotalUpdate(m: map<Name, nat>, k: Name, v: nat)
    requires k in m
    ensures Total(m[k := v]) == Total(m) - m[k] + v
    decreases m.Keys
  {
    NameOrder();
    var l := Least(m.Keys, NameLe);
    assert m[k := v].Keys == m.Keys;
    if l == k {
      assert m[k := v] - {k} == m - {k};
    } else {
      assert m[k := v] - {l} == (m - {l})[k := v];
      TotalUpdate(m - {l}, k, v);
    }
  }

  lemma StartKept(budgets: map<Name, nat>, cost: nat, premium: nat)
    ensures Kept(Start(budgets, cost, premium), budgets)
  {
    var b := Start(budgets, cost, premium);
    assert forall a, s :: Of(b.contests, a, s) == {};
    assert forall s :: With(b.contests, s) == {};
  }

  // ---- counting

  lemma AddCounts(cs: Contests, id: nat, x: Contest, a: Name, s: ContestStatus)
    requires id !in cs
    ensures Count(cs[id := x], a, s) == Count(cs, a, s) + if s == x.status && a == x.agent then 1 else 0
    ensures |With(cs[id := x], s)| == |With(cs, s)| + if s == x.status then 1 else 0
  {
    hide With, Of;
    AddWith(cs, id, x, s);
    AddOf(cs, id, x, a, s);
  }

  lemma AddWith(cs: Contests, id: nat, x: Contest, s: ContestStatus)
    requires id !in cs
    ensures With(cs[id := x], s) == (if s == x.status then With(cs, s) + {id} else With(cs, s)) && id !in With(cs, s)
  {}

  lemma AddOf(cs: Contests, id: nat, x: Contest, a: Name, s: ContestStatus)
    requires id !in cs
    ensures Of(cs[id := x], a, s) == (if s == x.status && a == x.agent then Of(cs, a, s) + {id} else Of(cs, a, s)) && id !in Of(cs, a, s)
  {
  }

  /** Replacing a contest is removing it and adding the new one. */
  lemma MoveCounts(cs: Contests, id: nat, x: Contest, a: Name, s: ContestStatus)
    requires id in cs
    ensures Count(cs[id := x], a, s) == Count(cs, a, s) + (if s == x.status && a == x.agent then 1 else 0)
                                        - (if s == cs[id].status && a == cs[id].agent then 1 else 0)
    ensures |With(cs[id := x], s)| == |With(cs, s)| + (if s == x.status then 1 else 0) - (if s == cs[id].status then 1 else 0)
  {
    var rest := cs - {id};
    assert rest[id := cs[id]] == cs && rest[id := x] == cs[id := x];
    AddCounts(rest, id, cs[id], a, s);
    AddCounts(rest, id, x, a, s);
  }

  // ---- what each operation keeps

  lemma OpenBalanced(b: State, budgets: map<Name, nat>, x: Contest, a: Name)
    requires Balanced(b, budgets, a) && x.status == Open && x.agent in b.balances && b.cost <= b.balances[x.agent]
    requires b.last + 1 !in b.contests
    ensures Balanced(b.(balances := b.balances[x.agent := b.balances[x.agent] - b.cost], contests := b.contests[b.last + 1 := x]), budgets, a)
  {
    AddCounts(b.contests, b.last + 1, x, a, Won);
    AddCounts(b.contests, b.last + 1, x, a, Open);
    AddCounts(b.contests, b.last + 1, x, a, Lost);
  }

  lemma OpenConserved(b: State, budgets: map<Name, nat>, x: Contest)
    requires Conserved(b, budgets) && x.status == Open && x.agent in b.balances && b.cost <= b.balances[x.agent]
    requires b.last + 1 !in b.contests
    ensures Conserved(b.(balances := b.balances[x.agent := b.balances[x.agent] - b.cost], contests := b.contests[b.last + 1 := x]), budgets)
  {
    hide Total, With, Count;
    TotalUpdate(b.balances, x.agent, b.balances[x.agent] - b.cost);
    AddCounts(b.contests, b.last + 1, x, x.agent, Won);
    AddCounts(b.contests, b.last + 1, x, x.agent, Open);
    AddCounts(b.contests, b.last + 1, x, x.agent, Lost);
    AddOne(b.cost, |With(b.contests, Open)| + |With(b.contests, Lost)|);
  }

  lemma OpenSingle(b: State, pos: Position, x: Contest)
    requires Single(b.contests) && Duplicates(b, pos.agent, pos.target) == {} && b.last + 1 !in b.contests
    requires x.agent == pos.agent && x.target == pos.target
    ensures Single(b.contests[b.last + 1 := x])
  {
    var cs := b.contests[b.last + 1 := x];
    forall z | z in b.contests ensures !Twins(b.contests[z], x) && !Twins(x, b.contests[z]) {
      assert z !in Duplicates(b, pos.agent, pos.target);
    }
    hide Twins, Duplicates;
  }

  lemma OpenKept(b: State, budgets: map<Name, nat>, pos: Position, round: nat)
    requires Kept(b, budgets)
    ensures Kept(OpenContest(b, pos, round).state, budgets)
  {
    hide Balanced, Conserved, Single;
    var st := OpenContest(b, pos, round);
    if st.out.Opened? && Duplicates(b, pos.agent, pos.target) == {} {
      var x := st.state.contests[b.last + 1];
      forall a | a in budgets ensures Balanced(st.state, budgets, a) {
        OpenBalanced(b, budgets, x, a);
        SameBooks(b.(balances := st.state.balances, contests := st.state.contests), st.state, budgets, a);
      }
      OpenConserved(b, budgets, x);
      SameTotals(b.(balances := st.state.balances, contests := st.state.contests), st.state, budgets);
      OpenSingle(b, pos, x);
    }
  }

  lemma SameBooks(b: State, c: State, budgets: map<Name, nat>, a: Name)
    requires Balanced(b, budgets, a) && c == b.(last := c.last)
    ensures Balanced(c, budgets, a)
  {}

  lemma SameTotals(b: State, c: State, budgets: map<Name, nat>)
    requires Conserved(b, budgets) && c == b.(last := c.last)
    ensures Conserved(c, budgets)
  {}

  predicate Refunds(b: State, status: ContestStatus, refund: nat) {
    match status
    case Won => refund == b.cost + b.premium
    case Lost => refund == 0
    case Refunded => refund == b.cost
    case Open => false
  }

  lemma CloseBalanced(b: State, budgets: map<Name, nat>, id: nat, status: ContestStatus, refund: nat, a: Name)
    requires Balanced(b, budgets, a) && IsOpen(b, id) && Refunds(b, status, refund)
    ensures Balanced(Close(b, id, status, refund), budgets, a)
  {
    var x := b.contests[id].(status := status);
    MoveCounts(b.contests, id, x, a, Won);
    MoveCounts(b.contests, id, x, a, Open);
    MoveCounts(b.contests, id, x, a, Lost);
    hide Count;
    if a == x.agent {
      OwedStep(b, status, refund, Count(b.contests, a, Won), Count(b.contests, a, Open), Count(b.contests, a, Lost));
    }
  }

  lemma CloseConserved(b: State, budgets: map<Name, nat>, id: nat, status: ContestStatus, refund: nat)
    requires Conserved(b, budgets) && IsOpen(b, id) && Refunds(b, status, refund) && b.contests[id].agent in b.balances
    ensures Conserved(Close(b, id, status, refund), budgets)
  {
    hide With, Total, Count, Credit;
    var g := b.contests[id].agent;
    var x := b.contests[id].(status := status);
    assert Close(b, id, status, refund).balances == b.balances[g := b.balances[g] + refund] by { CreditIs(b, g, refund); }
    TotalUpdate(b.balances, g, b.balances[g] + refund);
    MoveCounts(b.contests, id, x, g, Won);
    MoveCounts(b.contests, id, x, g, Open);
    MoveCounts(b.contests, id, x, g, Lost);
    OwedStep(b, status, refund, |With(b.contests, Won)|, |With(b.contests, Open)|, |With(b.contests, Lost)|);
  }

  lemma CreditIs(b: State, g: Name, amount: nat)
    requires g in b.balances
    ensures Credit(b, g, amount) == b.balances[g := b.balances[g] + amount]
  {}

  lemma OwedStep(b: State, status: ContestStatus, refund: nat, won: int, open: int, lost: int)
    requires Refunds(b, status, refund)
    ensures b.premium * (won + if status == Won then 1 else 0) - b.cost * (open - 1 + (lost + if status == Lost then 1 else 0))
            == b.premium * won - b.cost * (open + lost) + refund
  {
    match status
    case Won => assert b.premium * (won + 1) == b.premium * won + b.premium;
    case _ =>
  }

  lemma CloseSingle(cs: Contests, id: nat, status: ContestStatus)
    requires Single(cs) && id in cs && status != Open
    ensures Single(cs[id := cs[id].(status := status)])
  {}

  lemma CloseKept(b: State, budgets: map<Name, nat>, id: nat, status: ContestStatus, refund: nat)
    requires Kept(b, budgets) && IsOpen(b, id) && Refunds(b, status, refund)
    ensures Kept(Close(b, id, status, refund), budgets)
  {
    hide Balanced, Conserved, Single;
    forall a | a in budgets ensures Balanced(Close(b, id, status, refund), budgets, a) {
      CloseBalanced(b, budgets, id, status, refund, a);
    }
    CloseConserved(b, budgets, id, status, refund);
    CloseSingle(b.contests, id, status);
  }

  lemma DoKept(b: State, budgets: map<Name, nat>, op: Op, round: nat)
    requires Kept(b, budgets)
    ensures Kept(Do(b, op, round).state, budgets)
  {
    hide Balanced, Conserved, Single;
    match op {
      case DoOpen(pos) => OpenKept(b, budgets, pos, round);
      case DoSettle(id, won) =>
        if IsOpen(b, id) {
          assert b.contests[id].cost == b.cost;
          CloseKept(b, budgets, id, if won then Won else Lost, if won then b.cost + b.premium else 0);
        }
      case DoVoid(id) =>
        if IsOpen(b, id) {
          assert b.contests[id].cost == b.cost;
          CloseKept(b, budgets, id, Refunded, b.cost);
        }
    }
  }

  // ---------------------------------------------------------------- whole runs

  datatype Call = Call(op: Op, round: nat)

  /** A bank after any calls, in any order, with any arguments. */
  function Play(b: State, calls: seq<Call>): State
    decreases |calls|
  {
    if calls == [] then b else Play(Do(b, calls[0].op, calls[0].round).state, calls[1..])
  }

  lemma DoPrices(b: State, op: Op, round: nat)
    ensures var c := Do(b, op, round).state; c.cost == b.cost && c.premium == b.premium
  {}

  lemma {:induction false} PlayKept(b: State, budgets: map<Name, nat>, calls: seq<Call>)
    requires Kept(b, budgets)
    ensures Kept(Play(b, calls), budgets) && Play(b, calls).cost == b.cost && Play(b, calls).premium == b.premium
    decreases |calls|
  {
    hide Kept, Do;
    if calls != [] {
      DoKept(b, budgets, calls[0].op, calls[0].round);
      DoPrices(b, calls[0].op, calls[0].round);
      PlayKept(Do(b, calls[0].op, calls[0].round).state, budgets, calls[1..]);
    }
  }

  /** An agent's open and lost contests cost no more than its budget and premiums. */
  ghost predicate Affordable(b: State, budgets: map<Name, nat>, a: Name)
    requires a in budgets && b.cost > 0
  {
    Count(b.contests, a, Open) + Count(b.contests, a, Lost) <= (budgets[a] + b.premium * Count(b.contests, a, Won)) / b.cost
  }

  /** The price of argument in every reachable state: exact balances, and no more contests than the money allows. */
  lemma BankInvariants(budgets: map<Name, nat>, cost: nat, premium: nat, calls: seq<Call>, a: Name)
    requires cost > 0 && a in budgets
    ensures var b := Play(Start(budgets, cost, premium), calls);
            && b.cost == cost && b.premium == premium
            && Balanced(b, budgets, a) && Affordable(b, budgets, a)
            && Conserved(b, budgets) && Single(b.contests)
  {
    StartKept(budgets, cost, premium);
    PlayKept(Start(budgets, cost, premium), budgets, calls);
    hide Play, Tidy, Conserved, Single, Balanced, Affordable;
    BalancedAffordable(Play(Start(budgets, cost, premium), calls), budgets, a);
  }

  lemma BalancedAffordable(b: State, budgets: map<Name, nat>, a: Name)
    requires a in budgets && b.cost > 0 && Balanced(b, budgets, a)
    ensures Affordable(b, budgets, a)
  {
    hide Count;
    var funds := budgets[a] + b.premium * Count(b.contests, a, Won);
    DivBound(b.cost, Count(b.contests, a, Open) + Count(b.contests, a, Lost), funds);
  }

  lemma DivBound(c: nat, n: nat, m: nat)
    requires c > 0 && c * n <= m
    ensures n <= m / c
  {
    if n > m / c {
      TimesMono(c, m / c + 1, n);
      assert false;
    }
  }

  lemma TimesMono(c: nat, a: nat, b: nat)
    requires a <= b
    ensures c * a <= c * b
  {}

  // ---------------------------------------------------------------- the spend summary

  datatype Spend = Spend(staked: int, refunded: int, premium: int, burned: int, balance: int)

  /** Contests of `a` over all statuses, priced. */
  ghost function SpendOf(b: State, cs: Contests, a: Name, balance: int): Spend {
    var open, won, lost, back := Count(cs, a, Open), Count(cs, a, Won), Count(cs, a, Lost), Count(cs, a, Refunded);
    Spend(b.cost * (open + won + lost + back), b.cost * (won + back), b.premium * won, b.cost * lost, balance)
  }

  /** The summary reconciles: a balance is its budget, less stakes, plus refunds and premiums. */
  lemma SummaryReconciles(b: State, budgets: map<Name, nat>, a: Name)
    requires Kept(b, budgets) && a in budgets
    ensures var s := SpendOf(b, b.contests, a, b.balances[a]);
            s.balance == budgets[a] - s.staked + s.refunded + s.premium
  {
    hide Kept, Count, Balanced;
    KeptBalanced(b, budgets, a);
    var open, won, lost, back := Count(b.contests, a, Open), Count(b.contests, a, Won), Count(b.contests, a, Lost), Count(b.contests, a, Refunded);
    Spread(b.cost, open + lost, won + back);
    assert open + won + lost + back == (open + lost) + (won + back);
  }

  lemma KeptBalanced(b: State, budgets: map<Name, nat>, a: Name)
    requires Kept(b, budgets) && a in budgets
    ensures a in b.balances
    ensures b.balances[a] == budgets[a] + b.premium * Count(b.contests, a, Won)
                             - b.cost * (Count(b.contests, a, Open) + Count(b.contests, a, Lost))
  {
    hide Count, Tidy, Single, Conserved;
    assert Balanced(b, budgets, a);
  }

  lemma Spread(c: int, x: int, y: int)
    ensures c * (x + y) == c * x + c * y
  {}

  function AddRow(rec: Spend, x: Contest, premium: nat): Spend {
    var r := rec.(staked := rec.staked + x.cost);
    match x.status
    case Won => r.(refunded := r.refunded + x.cost, premium := r.premium + premium)
    case Lost => r.(burned := r.burned + x.cost)
    case Refunded => r.(refunded := r.refunded + x.cost)
    case Open => r
  }

  lemma RowCounts(b: State, cs: Contests, id: nat, x: Contest, a: Name, balance: int)
    requires id !in cs && x.cost == b.cost
    ensures SpendOf(b, cs[id := x], a, balance) ==
            if x.agent == a then AddRow(SpendOf(b, cs, a, balance), x, b.premium) else SpendOf(b, cs, a, balance)
  {
    AddCounts(cs, id, x, a, Open);
    AddCounts(cs, id, x, a, Won);
    AddCounts(cs, id, x, a, Lost);
    AddCounts(cs, id, x, a, Refunded);
    hide Count, With;
    if x.agent == a {
      var open, won, lost, back := Count(cs, a, Open), Count(cs, a, Won), Count(cs, a, Lost), Count(cs, a, Refunded);
      AddOne(b.cost, open + won + lost + back);
      AddOne(b.cost, won + back);
      AddOne(b.premium, won);
      AddOne(b.cost, lost);
    }
  }

  lemma AddOne(c: int, n: int)
    ensures c * (n + 1) == c * n + c
  {}

  // ---------------------------------------------------------------- the spend summary

  lemma NoRows(b: State, a: Name, balance: int)
    ensures SpendOf(b, map[], a, balance) == Spend(0, 0, 0, 0, balance)
  {
    assert forall s :: Of(map[], a, s) == {};
  }

  function ContestIds(b: State): (ids: seq<nat>)
    ensures NoDup(ids) && forall x :: x in ids <==> x in b.contests
  {
    NatOrder();
    SortedOf(b.contests.Keys, NatLe)
  }

  /** The first `i` rows of the contest table. */
  ghost function Prefix(b: State, ids: seq<nat>, i: nat): (p: Contests)
    requires i <= |ids|
    ensures i == 0 ==> p == map[]
  {
    map x | x in ids[..i] && x in b.contests :: b.contests[x]
  }

  lemma PrefixStep(b: State, ids: seq<nat>, i: nat)
    requires i < |ids| && NoDup(ids) && ids[i] in b.contests
    ensures ids[i] !in Prefix(b, ids, i) && Prefix(b, ids, i + 1) == Prefix(b, ids, i)[ids[i] := b.contests[ids[i]]]
  {
    assert ids[..i+1] == ids[..i] + [ids[i]];
  }

  lemma PrefixAll(b: State, ids: seq<nat>)
    requires forall x :: x in ids <==> x in b.contests
    ensures Prefix(b, ids, |ids|) == b.contests
  {
    assert ids[..|ids|] == ids;
  }

  ghost predicate Summed(b: State, cs: Contests, out: map<Name, Spend>) {
    out.Keys == b.balances.Keys && forall a :: a in b.balances ==> out[a] == SpendOf(b, cs, a, b.balances[a])
  }

  lemma SummaryStep(b: State, ids: seq<nat>, i: nat, out: map<Name, Spend>)
    requires i < |ids| && NoDup(ids) && ids[i] in b.contests
    requires b.contests[ids[i]].agent in b.balances && b.contests[ids[i]].cost == b.cost
    requires Summed(b, Prefix(b, ids, i), out)
    ensures var x := b.contests[ids[i]];
            Summed(b, Prefix(b, ids, i + 1), out[x.agent := AddRow(out[x.agent], x, b.premium)])
  {
    hide SpendOf, AddRow;
    PrefixStep(b, ids, i);
    forall a | a in b.balances { RowCounts(b, Prefix(b, ids, i), ids[i], b.contests[ids[i]], a, b.balances[a]); }
  }

  /** `spend_summary`: one pass over the contest table. */
  method SpendSummary(b: State) returns (out: map<Name, Spend>)
    requires forall x :: x in b.contests ==> b.contests[x].agent in b.balances && b.contests[x].cost == b.cost
    ensures out.Keys == b.balances.Keys
    ensures forall a :: a in b.balances ==> out[a] == SpendOf(b, b.contests, a, b.balances[a])
  {
    hide SpendOf, AddRow, Prefix, ContestIds;
    out := map a | a in b.balances :: Spend(0, 0, 0, 0, b.balances[a]);
    var ids := ContestIds(b);
    forall a | a in b.balances { NoRows(b, a, b.balances[a]); }
    for i := 0 to |ids|
      invariant Summed(b, Prefix(b, ids, i), out)
    {
      var x := b.contests[ids[i]];
      SummaryStep(b, ids, i, out);
      out := out[x.agent := AddRow(out[x.agent], x, b.premium)];
    }
    PrefixAll(b, ids);
  }
}
