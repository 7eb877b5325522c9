/** What an agent is shown: all of the ledger's live claims, contests and resources, as they are, and what of it is its own. */
module Views {
  import opened Order
  import opened Schemas
  import opened Rounds
  import RT = RunTheorems
  import L = Ledger
  import B = Bank

  /** The list shows exactly the claims with the status, each as filed, with its holders by name. */
  ghost predicate ShowsClaims(s: L.State, status: Status, vs: seq<ClaimView>) {
    && (forall i, j :: 0 <= i < j < |vs| ==> vs[i].id != vs[j].id)
    && (forall v :: v in vs ==> v.id in s.claims && s.claims[v.id].status == status && v.claim == s.claims[v.id] && ShowsHolders(s, v))
    && (forall id :: id in s.claims && s.claims[id].status == status ==> exists v :: v in vs && v.id == id)
  }

  /** Everyone holding a unit under the claim, once, by name. */
  ghost predicate ShowsHolders(s: L.State, v: ClaimView) {
    NoDup(v.holders) && Sorted(v.holders, NameLe) && forall b :: b in v.holders <==> exists k :: k in s.allocs.Keys && k.1 == b && s.allocs[k].claim == v.id
  }

  ghost predicate ShowsOwn(vs: seq<ClaimView>, own: seq<ClaimView>, name: Name) {
    forall v :: v in own <==> v in vs && v.claim.proposal.agent == name
  }

  ghost predicate ShowsResources(s: L.State, rs: map<Name, ResourceView>) {
    && rs.Keys == s.resources.Keys
    && forall r :: r in s.resources ==> rs[r] == ResourceView(s.resources[r].capacity, s.resources[r].group,
                                                              s.resources[r].capacity - |set k | k in s.allocs.Keys && k.0 == r :: k.1|)
  }

  ghost predicate ShowsContests(b: B.State, xs: seq<ContestView>) {
    && (forall x :: x in xs ==> B.IsOpen(b, x.id) && ShownContest(b, x))
    && (forall id :: B.IsOpen(b, id) ==> exists x :: x in xs && x.id == id)
  }

  ghost predicate ShownContest(b: B.State, x: ContestView)
    requires x.id in b.contests
  {
    var y := b.contests[x.id];
    x.agent == y.agent && x.target == y.target && x.round == y.round && x.cost == y.cost && x.position == y.position
  }

  lemma ClaimShown(s: L.State, status: Status, k: nat)
    requires k < |L.IdsWith(s, status)|
    ensures var v := ClaimsView(s, L.IdsWith(s, status))[k];
            v.id in s.claims && s.claims[v.id].status == status && v.claim == s.claims[v.id] && ShowsHolders(s, v)
  {
    hide ShowsHolders, L.HolderList;
    var ids := L.IdsWith(s, status);
    assert ids[k] in ids;
    HoldersShown(s, ids[k]);
    hide L.IdsWith;
  }

  lemma ClaimListed(s: L.State, status: Status, id: nat)
    requires id in s.claims && s.claims[id].status == status
    ensures exists v :: v in ClaimsView(s, L.IdsWith(s, status)) && v.id == id
  {
    hide L.HolderList;
    var ids := L.IdsWith(s, status);
    var vs := ClaimsView(s, ids);
    assert id in ids;
    var k :| 0 <= k < |ids| && ids[k] == id;
    assert vs[k] in vs;
  }

  lemma ClaimsApart(s: L.State, status: Status)
    ensures var vs := ClaimsView(s, L.IdsWith(s, status)); |vs| == |L.IdsWith(s, status)| && forall i, j :: 0 <= i < j < |vs| ==> vs[i].id != vs[j].id
  {
    hide L.HolderList;
    var ids := L.IdsWith(s, status);
    assert NoDup(ids);
    hide L.IdsWith;
  }

  lemma ClaimsShown(s: L.State, status: Status)
    ensures ShowsClaims(s, status, ClaimsView(s, L.IdsWith(s, status)))
  {
    hide ShowsHolders, L.IdsWith, ClaimsView;
    var vs := ClaimsView(s, L.IdsWith(s, status));
    ClaimsApart(s, status);
    forall id | id in s.claims && s.claims[id].status == status ensures exists v :: v in vs && v.id == id { ClaimListed(s, status, id); }
    forall v | v in vs ensures v.id in s.claims && s.claims[v.id].status == status && v.claim == s.claims[v.id] && ShowsHolders(s, v) {
      var k :| 0 <= k < |vs| && vs[k] == v;
      ClaimShown(s, status, k);
    }
  }

  lemma ResourcesShown(s: L.State)
    ensures ShowsResources(s, ResourcesView(s))
  {}

  lemma HoldersShown(s: L.State, id: nat)
    requires id in s.claims
    ensures ShowsHolders(s, ClaimView(id, s.claims[id], L.HolderList(s.allocs, id)))
  {
    NameOrder();
    hide NameLe;
  }

  lemma ContestsShown(b: B.State)
    ensures ShowsContests(b, ContestsView(b))
  {
    RT.ViewCovers(b);
    var xs, ids := ContestsView(b), B.OpenIds(b);
    forall x | x in xs ensures B.IsOpen(b, x.id) && ShownContest(b, x) {
      var k :| 0 <= k < |xs| && xs[k] == x;
      assert ids[k] in ids;
    }
  }

  /**
   * An agent's view shows every resource with its free units, every granted and every blocked claim with its holders, the
   * agent's own among them, every open contest, the rulings so far and everybody's balance.
   */
  lemma ViewShowsAll(w: World, name: Name, round: nat)
    ensures var v := ViewFor(w, name, round);
            && v.round == round && v.agent == name && v.rulings == w.rulings && v.balances == w.bank.balances
            && ShowsResources(w.ledger, v.resources) && ShowsContests(w.bank, v.openContests)
            && ShowsClaims(w.ledger, Granted, v.granted) && ShowsClaims(w.ledger, Blocked, v.blocked)
            && ShowsOwn(v.granted, v.myGranted, name) && ShowsOwn(v.blocked, v.myBlocked, name)
  {
    ClaimsShown(w.ledger, Granted);
    ClaimsShown(w.ledger, Blocked);
    ContestsShown(w.bank);
    ResourcesShown(w.ledger);
    hide ShowsClaims, ShowsContests, ShowsResources, ResourcesView, L.IdsWith, ClaimsView, ContestsView;
  }

  /** The mediator is shown the same, and the positions and deadlocks it is asked about. */
  lemma MediatorIsShownAll(w: World, round: nat, ps: seq<Position>, ds: seq<Deadlock>)
    ensures var v := MediatorViewFor(w, round, ps, ds); v.base == ViewFor(w, MEDIATOR, round) && v.positions == ps && v.deadlocks == ds
  {}
}
