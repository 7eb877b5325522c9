/** The credibility bank object: balances and contests updated in place, every settlement appended to the log. */
module BankObject {
  import opened Order
  import opened Schemas
  import opened Bank
  import opened ChainLog

  class CredibilityBank {
    const log: ChainLog
    const cost: nat
    const premium: nat
    var balances: map<Name, nat>
    var contests: map<nat, Contest>
    var last: nat

    function Value(): State
      reads this
    {
      State(balances, contests, last, cost, premium)
    }

    ghost predicate Valid()
      reads this, log
    {
      log.Valid() && log.Lines() != []
    }

    /** Opens a bank over the stored balances and contests, which are empty at first. */
    constructor (log: ChainLog, budgets: map<Name, nat>, cost: nat, premium: nat, stored: map<Name, nat>, rows: map<nat, Contest>)
      requires log.Valid() && log.Lines() != []
      ensures Valid() && Value() == OpenedOver(budgets, cost, premium, stored, rows) && this.log == log
    {
      this.log, this.cost, this.premium := log, cost, premium;
      balances, contests, last := budgets + stored, rows, Highest(rows.Keys);
    }

    method Emit(e: Event, round: nat)
      requires Valid()
      modifies log
      ensures Valid() && log.Lines() == old(log.Lines()) + Stamp(round, [e])
    {
      var ok := log.Append(e, round);
      assert Stamp(round, [e]) == [Stamped(round, e)];
    }

    /** Stakes a contest; an agent that cannot afford it is declined, and a second one on the same target is the first. */
    method OpenContest(pos: Position, round: nat) returns (out: Answer)
      requires Valid()
      modifies this`balances, this`contests, this`last, log
      ensures var st := Bank.OpenContest(old(Value()), pos, round);
              Valid() && Value() == st.state && out == st.out && log.Lines() == old(log.Lines()) + Stamp(round, st.events)
    {
      hide log.Valid, log.Lines, Stamp, Duplicates;
      if pos.stance != Block || pos.agent !in balances {
        NoLines(round);
        return CurrencyError;
      }
      if balances[pos.agent] < cost {
        Emit(ContestDeclined(pos.agent, pos.target), round);
        return Declined;
      }
      var dup := Duplicates(State(balances, contests, last, cost, premium), pos.agent, pos.target);
      if dup != {} {
        NoLines(round);
        NatOrder();
        return Opened(Least(dup, NatLe));
      }
      last := last + 1;
      var id := last;
      balances := balances[pos.agent := balances[pos.agent] - cost];
      contests := contests[id := Contest(pos.agent, pos.target, round, Open, cost, pos)];
      Emit(ContestOpened(id, pos.agent, pos.target, cost), round);
      out := Opened(id);
    }

    method Refund(agent: Name, amount: nat)
      modifies this`balances
      ensures balances == Credit(old(Value()), agent, amount)
    {
      if agent in balances { balances := balances[agent := balances[agent] + amount]; }
    }

    method Settle(id: nat, won: bool, round: nat) returns (out: Answer)
      requires Valid()
      modifies this`balances, this`contests, log
      ensures var st := Bank.Settle(old(Value()), id, won);
              Valid() && Value() == st.state && out == st.out && log.Lines() == old(log.Lines()) + Stamp(round, st.events)
    {
      hide log.Valid, log.Lines, Stamp;
      if id !in contests || contests[id].status != Open {
        NoLines(round);
        return CurrencyError;
      }
      var x := contests[id];
      if won { Refund(x.agent, x.cost + premium); }
      NothingRefunded(old(Value()), x.agent);
      contests := contests[id := x.(status := if won then Won else Lost)];
      Emit(ContestSettled(id, x.agent, won, if won then x.cost + premium else 0, if won then 0 else x.cost), round);
      out := Done;
    }

    method VoidContest(id: nat, round: nat) returns (out: Answer)
      requires Valid()
      modifies this`balances, this`contests, log
      ensures var st := Bank.VoidContest(old(Value()), id);
              Valid() && Value() == st.state && out == st.out && log.Lines() == old(log.Lines()) + Stamp(round, st.events)
    {
      hide log.Valid, log.Lines, Stamp;
      if id !in contests || contests[id].status != Open {
        NoLines(round);
        return CurrencyError;
      }
      var x := contests[id];
      Refund(x.agent, x.cost);
      contests := contests[id := x.(status := Refunded)];
      Emit(ContestVoid(id, x.agent, x.cost), round);
      out := Done;
    }
  }

  lemma NoLines(round: nat)
    ensures Stamp(round, []) == []
  {}

  lemma NothingRefunded(b: State, agent: Name)
    ensures Credit(b, agent, 0) == b.balances
  {}
}
