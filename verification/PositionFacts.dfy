/** What a filed position does: what a block costs and opens, what a yield gives up, and what is only recorded. */
module PositionFacts {
  import opened Order
  import opened Schemas
  import opened LedgerFacts
  import opened Rounds
  import L = Ledger
  import B = Bank
  import E = LedgerEffects

  // ---------------------------------------------------------------- blocking

  /** Contests are numbered no higher than the last number given out. */
  ghost predicate Numbered(b: B.State) {
    forall x :: x in b.contests ==> x <= b.last
  }

  /** The agent has an open contest on the target. */
  ghost predicate Contesting(b: B.State, a: Name, target: nat) {
    exists x :: x in b.contests && b.contests[x].status == B.Open && b.contests[x].agent == a && b.contests[x].target == target
  }

  /** Nothing but the bank and the log is different, and the log has these lines more. */
  ghost predicate OnlyBank(w: World, x: World, lines: Log) {
    x == w.(bank := x.bank, log := w.log + lines)
  }

  /** One contest more, open and paid for; no other contest and no other balance is different. */
  ghost predicate Staked(b: B.State, c: B.State, id: nat, pos: Position, round: nat) {
    && pos.agent in b.balances && b.balances[pos.agent] >= b.cost && id !in b.contests
    && c.balances == b.balances[pos.agent := b.balances[pos.agent] - b.cost]
    && c.contests == b.contests[id := B.Contest(pos.agent, pos.target, round, B.Open, b.cost, pos)]
    && c.cost == b.cost && c.premium == b.premium && Numbered(c)
  }

  /** A block of somebody else's granted claim. */
  ghost predicate Blocks(w: World, pos: Position) {
    && pos.stance == Block && pos.target in w.ledger.claims && w.ledger.claims[pos.target].status == Granted
    && w.ledger.claims[pos.target].proposal.agent != pos.agent
  }

  /**
   * A block of somebody else's granted claim. Who cannot pay the stake is declined, on the log only; who contests
   * the claim already changes nothing; anyone else pays the stake and opens one contest, which is logged.
   */
  lemma BlockStakes(w: World, pos: Position, round: nat, out: Out<()>)
    requires out == ProcessPosition(w, pos, round) && Blocks(w, pos) && pos.agent in w.bank.balances && Numbered(w.bank)
    ensures !out.aborted
    ensures w.bank.balances[pos.agent] < w.bank.cost ==>
              OnlyBank(w, out.world, [Stamped(round, ContestDeclined(pos.agent, pos.target))]) && out.world.bank == w.bank
    ensures w.bank.balances[pos.agent] >= w.bank.cost && Contesting(w.bank, pos.agent, pos.target) ==> out.world == w
    ensures w.bank.balances[pos.agent] >= w.bank.cost && !Contesting(w.bank, pos.agent, pos.target) ==>
              exists id :: Staked(w.bank, out.world.bank, id, pos, round)
                           && OnlyBank(w, out.world, [Stamped(round, ContestOpened(id, pos.agent, pos.target, w.bank.cost))])
  {
    var st := B.OpenContest(w.bank, pos, round);
    OneLine(round, ContestDeclined(pos.agent, pos.target));
    NoLine(round);
    assert w.log + [] == w.log;
    if B.Duplicates(w.bank, pos.agent, pos.target) != {} {
      var x :| x in B.Duplicates(w.bank, pos.agent, pos.target);
      assert Contesting(w.bank, pos.agent, pos.target);
    } else if w.bank.balances[pos.agent] >= w.bank.cost {
      var id := w.bank.last + 1;
      forall x | x in w.bank.contests ensures x !in B.Duplicates(w.bank, pos.agent, pos.target) {}
      OneLine(round, ContestOpened(id, pos.agent, pos.target, w.bank.cost));
      assert Staked(w.bank, st.state, id, pos, round);
    }
    hide Stamp, B.OpenContest;
  }

  lemma OneLine(round: nat, e: Event)
    ensures Stamp(round, [e]) == [Stamped(round, e)]
  {}

  lemma NoLine(round: nat)
    ensures Stamp(round, []) == []
  {}

  /** Without an account such a block aborts the run, and changes nothing. */
  lemma BlockWithoutAccount(w: World, pos: Position, round: nat, out: Out<()>)
    requires out == ProcessPosition(w, pos, round) && Blocks(w, pos) && pos.agent !in w.bank.balances
    ensures out.aborted && out.world == w
  {
    NoLine(round);
    assert w.log + [] == w.log;
  }

  // ---------------------------------------------------------------- yielding

  /** A yield of one's own claim with this status. */
  ghost predicate YieldsOwn(w: World, pos: Position, status: Status) {
    && pos.stance == Yield && pos.target in w.ledger.claims && w.ledger.claims[pos.target].status == status
    && w.ledger.claims[pos.target].proposal.agent == pos.agent
  }

  /**
   * A yield of one's own granted claim: exactly the named lose what they hold under it, or all its holders when it
   * names none; the claim is released when nobody is left. Naming someone who holds nothing under it, or anyone
   * twice, aborts the run and changes nothing.
   */
  lemma YieldGivesUp(w: World, pos: Position, round: nat, out: Out<()>)
    requires out == ProcessPosition(w, pos, round) && Sound(w.ledger) && YieldsOwn(w, pos, Granted)
    ensures out.aborted <==> !E.AllHold(w.ledger, pos.target, pos.release)
    ensures !out.aborted ==> E.TookBack(w.ledger, out.world.ledger, pos.target, E.Meant(w.ledger, pos.target, pos.release), Released, round)
                             && out.world == w.(ledger := out.world.ledger, log := out.world.log)
    ensures !out.aborted ==>
              exists names :: NoDup(names) && Elems(names) == E.Meant(w.ledger, pos.target, pos.release)
                              && out.world.log == w.log + Stamp(round, L.DeallocEvents(pos.target, w.ledger.claims[pos.target].proposal.resource, names)
                                                                       + [ReleaseEvent(pos.target, pos.agent, names)])
    ensures out.aborted ==> out.world == w
  {
    hide Sound, Stamp, L.Release, E.AllHold, E.TookBack, E.Meant, NoDup, L.DeallocEvents;
    E.ReleaseGivesUp(w.ledger, pos.agent, pos.target, pos.release, round);
    if E.AllHold(w.ledger, pos.target, pos.release) {
      ReleaseLines(w.ledger, pos.agent, pos.target, pos.release, round);
    } else {
      NoLine(round);
      assert w.log + [] == w.log;
    }
  }

  lemma ReleaseLines(s: L.State, agent: Name, id: nat, bens: Option<seq<Name>>, round: nat)
    requires Sound(s) && L.Release(s, agent, id, bens, round).out == L.Ok && E.AllHold(s, id, bens)
    ensures id in s.claims
    ensures exists names :: NoDup(names) && Elems(names) == E.Meant(s, id, bens)
                            && L.Release(s, agent, id, bens, round).events == L.DeallocEvents(id, s.claims[id].proposal.resource, names) + [ReleaseEvent(id, agent, names)]
  {
    hide Sound, NoDup, L.DeallocEvents, L.Targets, E.AllHold, E.Meant, L.Holders, L.Deallocate;
    E.TargetsMean(s, id, bens);
    E.TargetsHold(s, id, bens);
  }

  /** A yield of one's own blocked claim withdraws it, and takes nothing from anybody. */
  lemma YieldGivesIn(w: World, pos: Position, round: nat, out: Out<()>)
    requires out == ProcessPosition(w, pos, round) && YieldsOwn(w, pos, Blocked)
    ensures !out.aborted && out.world.bank == w.bank && out.world.log == w.log + [Stamped(round, WithdrawEvent(pos.target, pos.agent))]
    ensures var (s, t) := (w.ledger, out.world.ledger);
            && t.allocs == s.allocs && t.resources == s.resources && t.claims.Keys == s.claims.Keys
            && t.claims[pos.target].status == Withdrawn && t.claims[pos.target].proposal == s.claims[pos.target].proposal
            && forall i :: i in s.claims && i != pos.target ==> t.claims[i] == s.claims[i]
  {
    OneLine(round, WithdrawEvent(pos.target, pos.agent));
    hide Stamp;
  }

  // ---------------------------------------------------------------- anything else

  /** A position is only recorded: at most a note is logged, for an unknown target or one's own. */
  ghost predicate JustNoted(w: World, pos: Position, round: nat, out: Out<()>) {
    && !out.aborted
    && out.world == w.(log := w.log + if pos.target !in w.ledger.claims
                                          || (pos.stance == Block && w.ledger.claims[pos.target].proposal.agent == pos.agent)
                                       then [Stamped(round, PositionNote(pos.agent, pos.target))] else [])
  }

  /** Support, blocks of anything but somebody else's granted claim, and yields of anything but one's own live claim. */
  lemma OthersJustNoted(w: World, pos: Position, round: nat, out: Out<()>)
    requires out == ProcessPosition(w, pos, round)
    requires !Blocks(w, pos) && !YieldsOwn(w, pos, Granted) && !YieldsOwn(w, pos, Blocked)
    ensures JustNoted(w, pos, round, out)
  {
    OneLine(round, PositionNote(pos.agent, pos.target));
    assert w.log + [] == w.log;
    hide Stamp;
  }
}
