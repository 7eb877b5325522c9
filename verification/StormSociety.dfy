/** The guarantee for a freshly built society: registered resources, a new bank, a new detector. */
module StormSociety {
  import opened Order
  import opened Schemas
  import opened LedgerFacts
  import opened Rounds
  import opened RoundFacts
  import opened RunTheorems
  import opened RebookingFacts
  import opened Scenario
  import opened Impasse
  import opened Polite
  import R = Rebooking
  import A = Advocate
  import L = Ledger
  import B = Bank
  import D = Detector

  /** The storm's resources: seats in the seat group, a ferry crew in none, and QW441 no bigger than its takers. */
  ghost predicate StormResources(rs: seq<Registration>, d: R.Desk) {
    && AllNew(L.EMPTY, rs)
    && (forall q :: q in rs && IsSeat(q.id) ==> q.group == Some(SEAT))
    && (forall q :: q in rs && q.id == FERRY ==> q.group == None)
    && (forall q :: q in rs && q.group.None? ==> q.capacity <= 1)
    && exists q :: q in rs && q.id == Seat441() && 1 <= q.capacity <= |Legal441(d)|
  }

  /** The resources of `rs` have joined those of `s`, and nothing else has changed that a society starts from. */
  ghost predicate Joined(s: L.State, t: L.State, rs: seq<Registration>) {
    && t.allocs == s.allocs && t.claims == s.claims
    && (forall x :: x in t.resources <==> x in s.resources || exists q :: q in rs && q.id == x)
    && (forall x :: x in s.resources ==> t.resources[x] == s.resources[x])
    && (forall q :: q in rs ==> q.id in t.resources && t.resources[q.id] == L.Resource(q.capacity, q.group))
  }

  ghost predicate AllNew(s: L.State, rs: seq<Registration>) {
    (forall q :: q in rs ==> q.id !in s.resources) && forall i, j :: 0 <= i < j < |rs| ==> rs[i].id != rs[j].id
  }

  lemma PlayHead(r: LedgerFacts.Run, c: Crypto, rs: seq<Registration>) returns (next: LedgerFacts.Run)
    requires rs != [] && rs[0].id !in r.state.resources
    ensures next.state == r.state.(resources := r.state.resources[rs[0].id := L.Resource(rs[0].capacity, rs[0].group)])
    ensures Play(r, c, RegisterCalls(rs)) == Play(next, c, RegisterCalls(rs[1..]))
  {
    var q, calls := rs[0], RegisterCalls(rs);
    assert calls[1..] == RegisterCalls(rs[1..]);
    var st := L.Do(r.state, c, calls[0].op, calls[0].round);
    next := LedgerFacts.Run(st.state, r.log + Stamp(calls[0].round, st.events));
  }

  lemma JoinedMore(s: L.State, mid: L.State, t: L.State, rs: seq<Registration>)
    requires rs != [] && AllNew(s, rs) && mid == s.(resources := s.resources[rs[0].id := L.Resource(rs[0].capacity, rs[0].group)])
    requires Joined(mid, t, rs[1..])
    ensures Joined(s, t, rs)
  {
    assert forall x :: x in rs <==> x == rs[0] || x in rs[1..];
  }

  lemma AllNewTail(s: L.State, mid: L.State, rs: seq<Registration>)
    requires rs != [] && AllNew(s, rs) && mid.resources == s.resources[rs[0].id := L.Resource(rs[0].capacity, rs[0].group)]
    ensures rs[0].id !in s.resources && AllNew(mid, rs[1..])
  {
    assert rs[0] in rs;
    assert forall x :: x in rs[1..] ==> x in rs && x.id != rs[0].id;
  }

  lemma {:induction false} RegisteredOnly(r: LedgerFacts.Run, c: Crypto, rs: seq<Registration>)
    requires AllNew(r.state, rs)
    ensures Joined(r.state, Play(r, c, RegisterCalls(rs)).state, rs)
    decreases |rs|
  {
    if rs != [] {
      hide *;
      AllNewTail(r.state, r.state.(resources := r.state.resources[rs[0].id := L.Resource(rs[0].capacity, rs[0].group)]), rs);
      var next := PlayHead(r, c, rs);
      RegisteredOnly(next, c, rs[1..]);
      JoinedMore(r.state, next.state, Play(r, c, RegisterCalls(rs)).state, rs);
    }
  }

  lemma FreshStage(c: Crypto, header: string, rs: seq<Registration>, budgets: map<Name, nat>, cost: nat, premium: nat, threshold: nat, d: R.Desk)
    requires StormResources(rs, d) && threshold <= 2
    ensures var w := FreshWorld(c, header, rs, budgets, cost, premium, threshold);
            Stage(w, d) && SingleUnits(w.ledger) && w.bank.balances == budgets
  {
    hide Legal441, IsSeat, Seat441;
    RegisteredOnly(LedgerFacts.Run(L.EMPTY, [Stamped(0, Genesis(header))]), c, rs);
    hide Play, RegisterCalls;
    var s := FreshWorld(c, header, rs, budgets, cost, premium, threshold).ledger;
    forall f ensures IsSeat(SeatOf(f)) { SeatOfInjective(f, f); }
    hide SeatOf;
    assert SeatsGrouped(s);
  }

  /** Everyone is polite and budgeted. */
  ghost predicate PoliteSociety(cfg: Config, budgets: map<Name, nat>) {
    forall a :: a in cfg.agents ==> PoliteAgent(a) && a.name in budgets
  }

  /**
   * For any roster in which at least as many passengers may take QW441 as it has seats, and any advocate's table with
   * its wheelchair passengers, a society of polite agents records a deadlock within its first two rounds, with or
   * without a mediator.
   */
  lemma StormSocietyDeadlocks(cfg: Config, header: string, rs: seq<Registration>, budgets: map<Name, nat>, cost: nat, premium: nat, threshold: nat,
                              d: R.Desk, t: A.Table, j: nat)
    requires Cast(cfg, d, t, j) && StormResources(rs, d) && threshold <= 2 && PoliteSociety(cfg, budgets)
    ensures DeadlockedByTwo(cfg, FreshWorld(cfg.crypto, header, rs, budgets, cost, premium, threshold))
  {
    hide Healthy, Stage, UntilDetect, Round, StormResources, SingleUnits, FreshWorld, PoliteAgent;
    FreshStage(cfg.crypto, header, rs, budgets, cost, premium, threshold, d);
    FreshHealthy(cfg.crypto, header, rs, budgets, cost, premium, threshold);
    var w := FreshWorld(cfg.crypto, header, rs, budgets, cost, premium, threshold);
    Uncited(cfg.crypto, budgets, w);
    PoliteDeadlockByRoundTwo(cfg, Terms(budgets, false), w, d, t, j);
  }

  /** A deadlock on record by the second round is on record when the run ends, however it ends. */
  lemma FreshKeepsDeadlock(cfg: Config, header: string, rs: seq<Registration>, budgets: map<Name, nat>, cost: nat, premium: nat, threshold: nat)
    requires cfg.maxRounds >= 2 && DeadlockedByTwo(cfg, FreshWorld(cfg.crypto, header, rs, budgets, cost, premium, threshold))
    ensures RunSociety(cfg, FreshWorld(cfg.crypto, header, rs, budgets, cost, premium, threshold)).world.deadlocks != []
  {
    hide *;
    FreshHealthy(cfg.crypto, header, rs, budgets, cost, premium, threshold);
    var w := FreshWorld(cfg.crypto, header, rs, budgets, cost, premium, threshold);
    Uncited(cfg.crypto, budgets, w);
    RunKeepsDeadlock(cfg, Terms(budgets, false), w);
  }

  /** And whoever the others are, every run of at least two rounds that returns has recorded one. */
  lemma StormRunDeadlocks(cfg: Config, header: string, rs: seq<Registration>, budgets: map<Name, nat>, cost: nat, premium: nat, threshold: nat,
                          d: R.Desk, t: A.Table, j: nat)
    requires Cast(cfg, d, t, j) && StormResources(rs, d) && threshold <= 2 && cfg.maxRounds >= 2
    ensures var run := RunSociety(cfg, FreshWorld(cfg.crypto, header, rs, budgets, cost, premium, threshold));
            run.Returned? ==> run.world.deadlocks != []
  {
    hide Healthy, Stage, RunFrom, StormResources, FreshWorld, Cast;
    FreshStage(cfg.crypto, header, rs, budgets, cost, premium, threshold, d);
    FreshHealthy(cfg.crypto, header, rs, budgets, cost, premium, threshold);
    var w := FreshWorld(cfg.crypto, header, rs, budgets, cost, premium, threshold);
    Uncited(cfg.crypto, budgets, w);
    RunRecordsDeadlock(cfg, Terms(budgets, false), w, d, t, j);
  }
}
