/** How a run that reached the cap is closed: the fiat, the quarantine, the refunds, and the claims that die unserved. */
module FinalStory {
  import opened Order
  import opened Schemas
  import opened LedgerFacts
  import opened Rounds
  import opened RoundFacts
  import opened RunTheorems
  import opened SettlementFacts
  import opened MediationFacts
  import P = PositionFacts
  import E = LedgerEffects
  import L = Ledger
  import B = Bank
  import D = Detector

  // ---------------------------------------------------------------- refunds

  /** The agent's open contests. */
  ghost function OpenOf(b: B.State, a: Name): set<nat> {
    set id | id in b.contests && B.IsOpen(b, id) && b.contests[id].agent == a
  }

  /** Every open contest is refunded, each stake to its agent, and no other contest is different. */
  ghost predicate AllRefunded(b: B.State, c: B.State) {
    && c.contests.Keys == b.contests.Keys && c.balances.Keys == b.balances.Keys
    && (forall id :: id in b.contests ==>
          c.contests[id] == if B.IsOpen(b, id) then b.contests[id].(status := B.Refunded) else b.contests[id])
    && (forall a :: a in b.balances ==> c.balances[a] == b.balances[a] + b.cost * |OpenOf(b, a)|)
  }

  const NO_RULING := RulingFields.Ruling([], [], [], [])

  /** Everything that is contested. */
  ghost function Everything(b: B.State): Option<Deadlock> {
    Some(Deadlock(0, DeadlockKind.Contested, 0, [], [], D.SortedNats(set id | id in b.contests :: b.contests[id].target)))
  }

  /** To void contests is to settle them with nobody named and everything touched. */
  lemma {:induction false} VoidIsSettle(w: World, xs: seq<ContestView>, touched: set<nat>, round: nat)
    requires forall x :: x in xs ==> x.target in touched
    ensures VoidContests(w, xs, round) == SettleAll(w, xs, NO_RULING, touched, round)
    decreases |xs|
  {
    hide B.VoidContest, Stamp;
    if xs != [] {
      assert xs[0] in xs;
      VoidIsSettle(OnBank(w, B.VoidContest(w.bank, xs[0].id), round), xs[1..], touched, round);
    }
  }

  lemma AllTouched(b: B.State)
    ensures forall x :: x in ContestsView(b) ==> x.target in TouchedBy(NO_RULING, Everything(b))
    ensures forall id :: id in b.contests ==> Ending(NO_RULING, Everything(b), b.contests[id]) == B.Refunded
  {
    forall x | x in ContestsView(b) ensures x.target in TouchedBy(NO_RULING, Everything(b)) {
      var k :| 0 <= k < |ContestsView(b)| && ContestsView(b)[k] == x;
      assert Shows(b, x);
    }
    hide ContestsView, D.SortedNats;
  }

  lemma RefundsMean(b: B.State, c: B.State)
    requires EndedAll(b, c, NO_RULING, Everything(b)) && PaidOut(b, c, NO_RULING, Everything(b))
    ensures AllRefunded(b, c)
  {
    hide Ending, Everything;
    AllTouched(b);
    forall a ensures Endings(b, NO_RULING, Everything(b), a, B.Won) == {} && Endings(b, NO_RULING, Everything(b), a, B.Refunded) == OpenOf(b, a) {}
  }

  /** Voiding all open contests refunds them all. */
  lemma VoidsRefund(c: Crypto, terms: Terms, w: World, round: nat)
    requires Healthy(c, terms, w)
    ensures var out := VoidContests(w, ContestsView(w.bank), round);
            !out.aborted && AllRefunded(w.bank, out.world.bank) && out.world == w.(bank := out.world.bank, log := out.world.log)
  {
    hide Healthy, SettleAll, VoidContests, ContestsView, TouchedBy, EndedAll, PaidOut, Everything, ToldAmong, Ending;
    AllTouched(w.bank);
    VoidIsSettle(w, ContestsView(w.bank), TouchedBy(NO_RULING, Everything(w.bank)), round);
    SettlesAll(c, terms, w, NO_RULING, Everything(w.bank), round);
    RefundsMean(w.bank, VoidContests(w, ContestsView(w.bank), round).world.bank);
  }

  // ---------------------------------------------------------------- voided claims

  /** The named claims that are not over are voided and lose all they hold; no other claim changes status or holders. */
  ghost predicate JustVoided(s: L.State, t: L.State, ids: set<nat>) {
    && t.claims.Keys == s.claims.Keys && t.resources == s.resources
    && (forall i :: i in s.claims ==>
          t.claims[i].status == if i in ids && s.claims[i].status !in {Voided, Revoked, Released} then Voided else s.claims[i].status)
    && (forall k :: k in t.allocs <==> k in s.allocs && s.allocs[k].claim !in ids) && forall k :: k in t.allocs ==> t.allocs[k] == s.allocs[k]
  }

  lemma OneVoided(s: L.State, c: Crypto, id: nat, round: nat)
    requires Sound(s) && id in s.claims
    ensures var st := L.VoidClaim(s, id, round); st.out == L.Ok && Sound(st.state) && JustVoided(s, st.state, {id})
  {
    hide *;
    VoidClaimFacts(s, c, id, round);
    E.VoidEnds(s, id, round);
    OverHoldsNothing(s, id);
    var t := L.VoidClaim(s, id, round).state;
    if s.claims[id].status in {Voided, Revoked, Released} { LeftAlone(s, id); } else { VoidedAlone(s, t, id, round); }
  }

  lemma LeftAlone(s: L.State, id: nat)
    requires id in s.claims && s.claims[id].status in {Voided, Revoked, Released} && forall k :: k in s.allocs ==> s.allocs[k].claim != id
    ensures JustVoided(s, s, {id})
  {}

  lemma VoidedAlone(s: L.State, t: L.State, id: nat, round: nat)
    requires id in s.claims && s.claims[id].status !in {Voided, Revoked, Released} && t.resources == s.resources
    requires E.Took(s, t, id, L.Holders(s.allocs, id)) && t.claims == s.claims[id := s.claims[id].(status := Voided, resolved := Some(round))]
    ensures JustVoided(s, t, {id})
  {
    HoldersAre(s, id);
    hide L.Holders;
  }

  lemma HoldersAre(s: L.State, id: nat)
    ensures forall k :: k in s.allocs && s.allocs[k].claim == id ==> k.1 in L.Holders(s.allocs, id)
  {
    forall k | k in s.allocs && s.allocs[k].claim == id ensures k.1 in L.Holders(s.allocs, id) { assert k in s.allocs.Keys; }
  }

  lemma OverHoldsNothing(s: L.State, id: nat)
    requires Sound(s) && id in s.claims
    ensures s.claims[id].status != Granted ==> forall k :: k in s.allocs ==> s.allocs[k].claim != id
  {
    hide Within, Exclusive, Filed;
  }

  lemma {:induction false} AllVoided(c: Crypto, w: World, ids: seq<nat>, round: nat)
    requires Sound(w.ledger) && forall i :: i in ids ==> i in w.ledger.claims
    ensures var out := VoidClaims(w, ids, round);
            !out.aborted && JustVoided(w.ledger, out.world.ledger, Elems(ids)) && out.world.bank == w.bank && out.world.rulingSeq == w.rulingSeq
    decreases |ids|
  {
    hide Sound, L.VoidClaim, JustVoided, Stamp;
    if ids == [] {
      NoneVoided(w.ledger);
    } else {
      assert ids[0] in ids;
      OneVoided(w.ledger, c, ids[0], round);
      var x := OnLedger(w, L.VoidClaim(w.ledger, ids[0], round), round);
      VoidedKeys(w.ledger, x.ledger, {ids[0]});
      AllVoided(c, x, ids[1..], round);
      VoidedInTurn(w.ledger, x.ledger, VoidClaims(x, ids[1..], round).world.ledger, {ids[0]}, Elems(ids[1..]));
      assert Elems(ids) == {ids[0]} + Elems(ids[1..]);
    }
  }

  lemma VoidedKeys(s: L.State, t: L.State, ids: set<nat>)
    requires JustVoided(s, t, ids)
    ensures t.claims.Keys == s.claims.Keys
  {}

  lemma NoneVoided(s: L.State)
    ensures JustVoided(s, s, Elems<nat>([]))
  {}

  /** The claims that wait. */
  ghost function Waiting(s: L.State): set<nat> {
    set i | i in s.claims && s.claims[i].status == Blocked
  }

  lemma WaitingVoided(c: Crypto, w: World, round: nat)
    requires Sound(w.ledger)
    ensures var out := VoidClaims(w, L.IdsWith(w.ledger, Blocked), round);
            !out.aborted && JustVoided(w.ledger, out.world.ledger, Waiting(w.ledger)) && out.world.bank == w.bank && out.world.rulingSeq == w.rulingSeq
  {
    hide Sound, VoidClaims, JustVoided;
    AllVoided(c, w, L.IdsWith(w.ledger, Blocked), round);
    assert Elems(L.IdsWith(w.ledger, Blocked)) == Waiting(w.ledger);
    hide L.IdsWith;
  }

  // ---------------------------------------------------------------- quarantine

  /** Granted claims among the targets are voided; no other claim changes status. */
  ghost predicate Quarantined(s: L.State, t: L.State, targets: set<nat>) {
    JustVoided(s, t, GrantedAmong(s, targets))
  }

  function GrantedAmong(s: L.State, targets: set<nat>): set<nat> {
    set i | i in targets && i in s.claims && s.claims[i].status == Granted
  }

  lemma QuarantinedBoth(s: L.State, t: L.State, u: L.State, id: nat, targets: set<nat>)
    requires Quarantined(s, t, {id}) && Quarantined(t, u, targets)
    ensures Quarantined(s, u, {id} + targets)
  {
    hide JustVoided;
    GrantedLeft(s, t, GrantedAmong(s, {id}));
    assert GrantedAmong(s, {id} + targets) == GrantedAmong(s, {id}) + GrantedAmong(t, targets);
    VoidedInTurn(s, t, u, GrantedAmong(s, {id}), GrantedAmong(t, targets));
  }

  lemma GrantedLeft(s: L.State, t: L.State, ids: set<nat>)
    requires JustVoided(s, t, ids)
    ensures t.claims.Keys == s.claims.Keys && forall i :: i in s.claims ==> (t.claims[i].status == Granted <==> s.claims[i].status == Granted && i !in ids)
  {}

  function TargetsIn(xs: seq<ContestView>): set<nat> {
    set x | x in xs :: x.target
  }

  lemma OneQuarantined(c: Crypto, w: World, target: nat, round: nat)
    requires Sound(w.ledger)
    ensures var x := QuarantineTarget(w, target, round);
            Sound(x.ledger) && Quarantined(w.ledger, x.ledger, {target}) && x == w.(ledger := x.ledger, log := x.log)
  {
    hide Sound, L.VoidClaim, Stamp;
    if target in w.ledger.claims && w.ledger.claims[target].status == Granted {
      OneVoided(w.ledger, c, target, round);
      assert GrantedAmong(w.ledger, {target}) == {target};
    } else {
      assert GrantedAmong(w.ledger, {target}) == {};
    }
  }

  /** The quarantine treats the bank as voiding the contests does, and the ledger claim by claim. */
  lemma {:induction false} QuarantineBoth(c: Crypto, w: World, xs: seq<ContestView>, round: nat)
    requires Sound(w.ledger) && Covers(xs, w.bank)
    ensures var out := Quarantine(w, xs, round);
            && !out.aborted && out.world.bank == VoidContests(w, xs, round).world.bank && Sound(out.world.ledger)
            && Quarantined(w.ledger, out.world.ledger, TargetsIn(xs)) && out.world.rulingSeq == w.rulingSeq
    decreases |xs|
  {
    hide Sound, Covers, B.VoidContest, L.VoidClaim, Quarantined, Stamp;
    if xs == [] {
      NoneQuarantined(w.ledger);
    } else {
      var x := QuarantineTarget(w, xs[0].target, round);
      OneQuarantined(c, w, xs[0].target, round);
      CloseCovers(xs, w.bank);
      var y := OnBank(x, B.VoidContest(x.bank, xs[0].id), round);
      QuarantineBoth(c, y, xs[1..], round);
      SameBankVoids(y, OnBank(w, B.VoidContest(w.bank, xs[0].id), round), xs[1..], round);
      QuarantinedBoth(w.ledger, y.ledger, Quarantine(y, xs[1..], round).world.ledger, xs[0].target, TargetsIn(xs[1..]));
      assert forall v :: v in xs <==> v == xs[0] || v in xs[1..];
      assert TargetsIn(xs) == {xs[0].target} + TargetsIn(xs[1..]);
    }
  }

  lemma NoneQuarantined(s: L.State)
    ensures Quarantined(s, s, TargetsIn([]))
  {}

  lemma {:induction false} SameBankVoids(w: World, x: World, xs: seq<ContestView>, round: nat)
    requires x.bank == w.bank
    ensures VoidContests(x, xs, round).world.bank == VoidContests(w, xs, round).world.bank
    decreases |xs|
  {
    hide B.VoidContest, Stamp;
    if xs != [] { SameBankVoids(OnBank(w, B.VoidContest(w.bank, xs[0].id), round), OnBank(x, B.VoidContest(x.bank, xs[0].id), round), xs[1..], round); }
  }

  /** A claim somebody contests. */
  ghost predicate Contested(b: B.State, id: nat) {
    exists x :: B.IsOpen(b, x) && b.contests[x].target == id
  }

  lemma TargetsAreContested(b: B.State)
    ensures forall i :: i in TargetsIn(ContestsView(b)) <==> Contested(b, i)
  {
    ViewCovers(b);
    var xs := ContestsView(b);
    forall i ensures i in TargetsIn(xs) <==> Contested(b, i) {
      if i in TargetsIn(xs) {
        var x :| x in xs && x.target == i;
        assert Shows(b, x);
      }
      if id :| B.IsOpen(b, id) && b.contests[id].target == i { OpenIsShown(b, id); }
    }
    hide ContestsView;
  }

  /** What dies when nobody adjudicates: what waits, and what is granted but contested. */
  ghost function Undecided(s: L.State, b: B.State): set<nat> {
    set i | i in s.claims && (s.claims[i].status == Blocked || (s.claims[i].status == Granted && Contested(b, i)))
  }

  /**
   * Without a mediator, a run at the cap is closed by voiding exactly the waiting claims and the granted claims under an
   * open contest, and by refunding every open contest.
   */
  lemma QuarantineStory(cfg: Config, terms: Terms, w: World, round: nat)
    requires Healthy(cfg.crypto, terms, w) && cfg.mediator.None?
    ensures var out := Finalize(cfg, w, round);
            !out.aborted && AllRefunded(w.bank, out.world.bank) && JustVoided(w.ledger, out.world.ledger, Undecided(w.ledger, w.bank))
            && out.world.rulingSeq == w.rulingSeq
  {
    hide Healthy, Sound, Quarantine, VoidClaims, VoidContests, Covers, L.IdsWith, ContestsView, AllRefunded, Quarantined, JustVoided, Waiting, Undecided;
    var c, a := cfg.crypto, Say(w, round, [SafetyFinalize]);
    HealthyParts(c, terms, w);
    FineSay(c, terms, w, round, [SafetyFinalize]);
    FineHealthy(c, terms, w, a);
    var xs := ContestsView(a.bank);
    ViewCovers(a.bank);
    QuarantineBoth(c, a, xs, round);
    VoidsRefund(c, terms, a, round);
    var one := Quarantine(a, xs, round).world;
    WaitingVoided(c, one, round);
    TargetsAreContested(w.bank);
    DecidedBoth(w.ledger, one.ledger, VoidClaims(one, L.IdsWith(one.ledger, Blocked), round).world.ledger, w.bank, TargetsIn(xs));
  }

  lemma DecidedBoth(s: L.State, t: L.State, u: L.State, b: B.State, targets: set<nat>)
    requires Quarantined(s, t, targets) && JustVoided(t, u, Waiting(t)) && forall i :: i in targets <==> Contested(b, i)
    ensures JustVoided(s, u, Undecided(s, b))
  {
    hide Contested, JustVoided;
    var granted := GrantedAmong(s, targets);
    WaitingStays(s, t, granted);
    assert Undecided(s, b) == granted + Waiting(s);
    hide Waiting, Undecided, Quarantined;
    VoidedInTurn(s, t, u, granted, Waiting(s));
  }

  lemma WaitingStays(s: L.State, t: L.State, granted: set<nat>)
    requires JustVoided(s, t, granted) && forall i :: i in granted ==> i in s.claims && s.claims[i].status == Granted
    ensures Waiting(t) == Waiting(s)
  {}

  lemma VoidedInTurn(s: L.State, t: L.State, u: L.State, a: set<nat>, b: set<nat>)
    requires JustVoided(s, t, a) && JustVoided(t, u, b)
    ensures JustVoided(s, u, a + b)
  {}

  // ---------------------------------------------------------------- fiat

  /** The stand-in deadlock: everything that waits or is contested, who waits or contests, and what is waited for. */
  ghost predicate PutsEverything(w: World, dl: Deadlock, round: nat) {
    var s := w.ledger;
    && dl.kind == DeadlockKind.Contested && dl.round == round
    && (forall i :: i in dl.claims <==> i in Waiting(s) || Contested(w.bank, i))
    && (forall r :: r in dl.resources <==> exists i :: i in Waiting(s) && i in s.claims && s.claims[i].proposal.resource == r)
    && (forall a :: a in dl.agents <==> (exists i :: i in Waiting(s) && i in s.claims && s.claims[i].proposal.agent == a)
                                        || exists x :: B.IsOpen(w.bank, x) && w.bank.contests[x].agent == a)
  }

  lemma WaitingIs(s: L.State)
    ensures Elems(L.IdsWith(s, Blocked)) == Waiting(s)
  {
    hide L.IdsWith;
  }

  lemma FiatPutsEverything(w: World, round: nat)
    ensures PutsEverything(w, FiatDeadlock(w, round), round)
  {
    hide *;
    var xs, dl := ContestsView(w.bank), FiatDeadlock(w, round);
    FiatIs(w, round);
    TargetsAreContested(w.bank);
    AgentsContest(w.bank);
    SameTargets(xs);
    PutsFrom(w, dl, round, TargetsOf(xs), AgentsOf(xs));
  }

  lemma PutsFrom(w: World, dl: Deadlock, round: nat, targets: set<nat>, agents: set<Name>)
    requires dl.kind == DeadlockKind.Contested && dl.round == round && dl.claims == D.SortedNats(Waiting(w.ledger) + targets)
    requires forall i :: i in targets <==> Contested(w.bank, i)
    requires forall a :: a in agents <==> exists x :: B.IsOpen(w.bank, x) && w.bank.contests[x].agent == a
    requires var (s, waiting) := (w.ledger, Waiting(w.ledger));
             && dl.resources == L.SortedNames(set i | i in waiting && i in s.claims :: s.claims[i].proposal.resource)
             && dl.agents == L.SortedNames((set i | i in waiting && i in s.claims :: s.claims[i].proposal.agent) + agents)
    ensures PutsEverything(w, dl, round)
  {
    hide Contested, Waiting, D.SortedNats, L.SortedNames;
  }

  lemma FiatIs(w: World, round: nat)
    ensures var (s, xs, dl) := (w.ledger, ContestsView(w.bank), FiatDeadlock(w, round));
            var waiting := Waiting(s);
            && dl.kind == DeadlockKind.Contested && dl.round == round && dl.claims == D.SortedNats(waiting + TargetsOf(xs))
            && dl.resources == L.SortedNames(set i | i in waiting && i in s.claims :: s.claims[i].proposal.resource)
            && dl.agents == L.SortedNames((set i | i in waiting && i in s.claims :: s.claims[i].proposal.agent) + AgentsOf(xs))
  {
    hide Waiting, ContestsView, D.SortedNats, L.SortedNames, L.IdsWith, AgentsOf, TargetsOf;
    WaitingIs(w.ledger);
  }

  lemma SameTargets(xs: seq<ContestView>)
    ensures TargetsOf(xs) == TargetsIn(xs)
  {}

  lemma AgentsContest(b: B.State)
    ensures forall a :: a in AgentsOf(ContestsView(b)) <==> exists x :: B.IsOpen(b, x) && b.contests[x].agent == a
  {
    ViewCovers(b);
    var xs := ContestsView(b);
    forall a ensures a in AgentsOf(xs) <==> exists x :: B.IsOpen(b, x) && b.contests[x].agent == a {
      if a in AgentsOf(xs) {
        var x :| x in xs && x.agent == a;
        assert Shows(b, x);
      }
      if id :| B.IsOpen(b, id) && b.contests[id].agent == a {
        var x :| x in xs && x.id == id;
        assert Shows(b, x);
      }
    }
    hide ContestsView;
  }

  /** All positions filed so far, in order. */
  ghost predicate AllFiled(w: World, ps: seq<Position>) {
    |ps| == |w.positions| && forall i :: 0 <= i < |ps| ==> ps[i] == w.positions[i].1
  }

  /** The fiat is announced and its answer takes effect. */
  ghost predicate ByFiat(cfg: Config, m: Mediator, w: World, v: World, round: nat, dl: Deadlock, ps: seq<Position>) {
    && PutsEverything(w, dl, round) && AllFiled(w, ps)
    && Answered(cfg, w.(log := w.log + [Stamped(round, FiatCalled)]), v, m.fiat(MediatorViewFor(w, round, ps, [dl])), round, Some(dl))
  }

  /** What is still contested is refunded, and what still waits is voided. */
  ghost predicate Cleared(v: World, x: World) {
    AllRefunded(v.bank, x.bank) && JustVoided(v.ledger, x.ledger, Waiting(v.ledger))
  }

  /**
   * With a mediator, a run at the cap is closed by one ruling by fiat, on everything that waits or is contested, all
   * positions and the view of the moment; its answer takes effect, and then what is still contested is refunded and
   * what still waits is voided.
   */
  lemma FiatStory(cfg: Config, terms: Terms, m: Mediator, w: World, round: nat)
    requires Healthy(cfg.crypto, terms, w) && (terms.cited ==> ResolvesSafely(cfg)) && cfg.mediator == Some(m) && !Finalize(cfg, w, round).aborted
    ensures var x := Finalize(cfg, w, round).world;
            x.rulingSeq == w.rulingSeq + 1 && exists dl, ps, v :: ByFiat(cfg, m, w, v, round, dl, ps) && Cleared(v, x)
  {
    hide Healthy, Sound, SignAndApply, VoidContests, VoidClaims, FiatDeadlock, ResolvesSafely, L.IdsWith, ContestsView, MediatorViewFor, Stamp;
    hide Answered, AllRefunded, JustVoided, Waiting, PutsEverything, AllPositions, NumberedNext;
    var c := cfg.crypto;
    var dl, ps := FiatDeadlock(w, round), AllPositions(w.positions);
    FiatPutsEverything(w, round);
    var r := m.fiat(MediatorViewFor(w, round, ps, [dl]));
    var a := Say(w, round, [FiatCalled]);
    P.OneLine(round, FiatCalled);
    FineSay(c, terms, w, round, [FiatCalled]);
    FineHealthy(c, terms, w, a);
    RulingDoes(cfg, terms, a, r, round, Some(dl));
    FineSign(cfg, terms, a, r, round, Some(dl));
    var v := SignAndApply(cfg, a, r, round, Some(dl)).world;
    AnswerNumbers(cfg, a, v, r, round, Some(dl));
    FineHealthy(c, terms, a, v);
    AfterFiat(c, terms, v, round);
    NumberIs(a, v);
    FilesAll(w);
    assert ByFiat(cfg, m, w, v, round, dl, ps);
  }

  lemma NumberIs(w: World, x: World)
    requires NumberedNext(w, x)
    ensures x.rulingSeq == w.rulingSeq + 1
  {}

  lemma FilesAll(w: World)
    ensures AllFiled(w, AllPositions(w.positions))
  {}

  lemma AfterFiat(c: Crypto, terms: Terms, v: World, round: nat)
    requires Healthy(c, terms, v)
    ensures var two := VoidContests(v, ContestsView(v.bank), round);
            var x := VoidClaims(two.world, L.IdsWith(two.world.ledger, Blocked), round);
            !two.aborted && !x.aborted && Cleared(v, x.world) && x.world.rulingSeq == v.rulingSeq
  {
    hide Healthy, Sound, VoidContests, VoidClaims, L.IdsWith, ContestsView, AllRefunded, JustVoided, Waiting;
    VoidsRefund(c, terms, v, round);
    HealthyParts(c, terms, v);
    WaitingVoided(c, VoidContests(v, ContestsView(v.bank), round).world, round);
  }
}
