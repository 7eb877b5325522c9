/** The greedy single planner: passengers in commercial order, each to the earliest legal flight with a seat. */
module Baseline {
  import opened Order
  import opened Schemas
  import opened Ledger
  import opened LedgerFacts
  import opened Books
  import opened Scenario

  const PLANNER: Name := "single_planner"
  const ROUND := 1

  // ---------------------------------------------------------------- the two orders

  function FareRank(fare: string): nat {
    match fare
    case "F" => 0
    case "J" => 1
    case "W" => 2
    case "Y" => 3
    case _ => 9
  }

  /** Elite first, then fare class, then time of booking. */
  predicate CommercialLe(p: Passenger, q: Passenger) {
    if p.elite != q.elite then p.elite
    else if FareRank(p.fare) != FareRank(q.fare) then FareRank(p.fare) < FareRank(q.fare)
    else p.booking <= q.booking
  }

  function Arrival(flights: seq<Flight>, f: Name): int
    decreases |flights|
  {
    if flights == [] then 0
    else if flights[|flights|-1].id == f then flights[|flights|-1].arr
    else Arrival(flights[..|flights|-1], f)
  }

  predicate FlightLe(flights: seq<Flight>, f: Name, g: Name) {
    if Arrival(flights, f) != Arrival(flights, g) then Arrival(flights, f) < Arrival(flights, g) else NameLe(f, g)
  }

  function ByArrival(flights: seq<Flight>): (Name, Name) -> bool {
    (f, g) => FlightLe(flights, f, g)
  }

  lemma ByArrivalOrder(flights: seq<Flight>)
    ensures TotalOrder(ByArrival(flights))
  {
    NameOrder();
    var le := ByArrival(flights);
    hide NameLe;
    assert forall f, g :: le(f, g) <==> FlightLe(flights, f, g);
  }

  // ---------------------------------------------------------------- the seat loop

  function SeatClaim(p: Passenger, f: Name): Proposal {
    var fields := ProposalFields.Proposal(PLANNER, SeatOf(f), [p.id], "earliest legal arrival by commercial priority", true);
    assert fields.beneficiaries == [p.id];
    fields
  }

  predicate HasRoom(s: State, f: Name) {
    SeatOf(f) in s.resources && Free(s, SeatOf(f)) >= 1
  }

  /** The first flight of the list with a free seat. */
  function FirstOpen(s: State, choices: seq<Name>): (r: Option<Name>)
    ensures r.Some? ==> r.value in choices && HasRoom(s, r.value)
    ensures r.None? ==> forall f :: f in choices ==> !HasRoom(s, f)
  {
    if choices == [] then None
    else if HasRoom(s, choices[0]) then Some(choices[0])
    else
      assert choices == [choices[0]] + choices[1..];
      FirstOpen(s, choices[1..])
  }

  function Submit(r: Run, p: Proposal): Run {
    var st := SubmitPlain(r.state, p, ROUND);
    Run(st.state, r.log + Stamp(ROUND, st.events))
  }

  function SeatOne(r: Run, p: Passenger, flights: seq<Flight>): Run {
    match FirstOpen(r.state, SortBy(p.legal, ByArrival(flights)))
    case None => r
    case Some(f) => Submit(r, SeatClaim(p, f))
  }

  /** The ledger once the passengers of `order` have been dealt with, one by one. */
  function SeatAll(r: Run, order: seq<Passenger>, flights: seq<Flight>): Run
    decreases |order|
  {
    if order == [] then r else SeatOne(SeatAll(r, order[..|order|-1], flights), order[|order|-1], flights)
  }

  // ---------------------------------------------------------------- what the loop keeps

  /** Every legal flight is a registered seat resource, and nobody is seated yet. */
  ghost predicate Boarding(s: State, pax: seq<Passenger>) {
    && Sound(s)
    && (forall p, f :: p in pax && f in p.legal ==> SeatOf(f) in s.resources && s.resources[SeatOf(f)].group == Some(SEAT))
    && (forall k :: k in s.allocs ==> s.allocs[k].group != Some(SEAT) && !IsSeat(k.0))
  }

  predicate Sits(s: State, p: Passenger, f: Name) {
    (SeatOf(f), p.id) in s.allocs
  }

  predicate IdIn(b: Name, ps: seq<Passenger>) {
    exists i :: 0 <= i < |ps| && ps[i].id == b
  }

  /** The flight is full, and everyone on it comes from `earlier`. */
  ghost predicate TakenBy(s: State, f: Name, earlier: seq<Passenger>) {
    && SeatOf(f) in s.resources && Used(s.allocs, SeatOf(f)) == s.resources[SeatOf(f)].capacity
    && forall k :: k in s.allocs && k.0 == SeatOf(f) ==> IdIn(k.1, earlier)
  }

  /** The passenger holds no seat as good as `f`. */
  ghost predicate Prefers(s: State, p: Passenger, f: Name, flights: seq<Flight>) {
    forall g :: Sits(s, p, g) ==> !FlightLe(flights, g, f)
  }

  ghost predicate Stable(s: State, order: seq<Passenger>, j: nat, flights: seq<Flight>)
    requires j < |order|
  {
    forall f :: f in order[j].legal && Prefers(s, order[j], f, flights) ==> TakenBy(s, f, order[..j])
  }

  /** Seats are only held by passengers dealt with, each on a legal flight. */
  ghost predicate Lawful(s: State, done: seq<Passenger>) {
    forall k :: k in s.allocs && (s.allocs[k].group == Some(SEAT) || IsSeat(k.0)) ==>
      exists j, f :: 0 <= j < |done| && done[j].id == k.1 && f in done[j].legal && k.0 == SeatOf(f)
  }

  /** No claim filed since `s` is blocked. */
  ghost predicate NoneBlocked(s: State, t: State) {
    forall i :: i in t.claims ==> (i in s.claims && t.claims[i] == s.claims[i]) || t.claims[i].status == Granted
  }

  ghost predicate Progress(s: State, t: State, done: seq<Passenger>, flights: seq<Flight>) {
    && Sound(t) && t.resources == s.resources && Lawful(t, done) && NoneBlocked(s, t)
    && forall j :: 0 <= j < |done| ==> Stable(t, done, j, flights)
  }

  // ---------------------------------------------------------------- one passenger

  /** A seat with room, for someone not seated: the submission is granted. */
  lemma SeatGranted(t: State, p: Passenger, f: Name)
    requires Sound(t) && HasRoom(t, f) && t.resources[SeatOf(f)].group == Some(SEAT)
    requires forall k :: k in t.allocs && t.allocs[k].group == Some(SEAT) ==> k.1 != p.id
    ensures var id := t.claimSeq + 1;
            var u := SubmitPlain(t, SeatClaim(p, f), ROUND).state;
            && u.resources == t.resources && u.allocs == t.allocs[(SeatOf(f), p.id) := Alloc(id, Some(SEAT))]
            && u.claims == t.claims[id := Claim(SeatClaim(p, f), Granted, ROUND, Some(ROUND), None)]
            && (SeatOf(f), p.id) !in t.allocs
  {
    hide Sound, Granting, NoDup;
    assert !HeldInGroup(t.allocs, SEAT, p.id);
    SeatBacked(t, f);
    assert (SeatOf(f), p.id) !in t.allocs;
    hide SeatOf, Used, HeldInGroup;
    OneHasNoDup(p.id);
    GrantingOne(t.allocs, t.claimSeq + 1, SeatOf(f), Some(SEAT), p.id);
  }

  lemma OneHasNoDup(b: Name)
    ensures NoDup([b])
  {}

  lemma SeatBacked(t: State, f: Name)
    requires Sound(t) && SeatOf(f) in t.resources && t.resources[SeatOf(f)].group == Some(SEAT)
    ensures forall k :: k in t.allocs && k.0 == SeatOf(f) ==> t.allocs[k].group == Some(SEAT)
  {
    hide Within, Exclusive, Filed;
  }

  lemma GrantingOne(a: Allocs, id: nat, r: Name, g: Option<Name>, b: Name)
    ensures Granting(a, id, r, g, [b]) == a[(r, b) := Alloc(id, g)]
  {
    assert forall x :: x in [b] <==> x == b;
  }

  /** The first open flight of a sorted list is the best of the open ones. */
  lemma {:induction false} FirstIsBest(s: State, choices: seq<Name>, le: (Name, Name) -> bool, g: Name)
    requires Sorted(choices, le) && TotalOrder(le) && g in choices && HasRoom(s, g)
    ensures FirstOpen(s, choices).Some? && le(FirstOpen(s, choices).value, g)
  {
    hide HasRoom;
    if HasRoom(s, choices[0]) {
      assert le(g, g);
    } else {
      FirstIsBest(s, choices[1..], le, g);
    }
  }

  /** The passenger's pick is the best legal flight that still has room. */
  lemma PickIsBest(s: State, p: Passenger, flights: seq<Flight>, g: Name)
    requires g in p.legal && HasRoom(s, g)
    ensures var pick := FirstOpen(s, SortBy(p.legal, ByArrival(flights)));
            pick.Some? && FlightLe(flights, pick.value, g)
  {
    hide HasRoom, FirstOpen, FlightLe;
    var le := ByArrival(flights);
    ByArrivalOrder(flights);
    SortBySorted(p.legal, le);
    SortByElems(p.legal, le);
    FirstIsBest(s, SortBy(p.legal, le), le, g);
  }

  /** A seat flight without room is full, and held by those dealt with. */
  lemma FullIsTaken(t: State, f: Name, done: seq<Passenger>)
    requires Sound(t) && Lawful(t, done) && SeatOf(f) in t.resources && t.resources[SeatOf(f)].group == Some(SEAT) && !HasRoom(t, f)
    ensures TakenBy(t, f, done)
  {
    hide Exclusive, Filed, Used;
  }

  /** A new seat on another flight changes nothing for a full one. */
  lemma StillTaken(t: State, u: State, f: Name, g: Name, b: Name, a: Alloc, earlier: seq<Passenger>)
    requires u.allocs == t.allocs[(SeatOf(f), b) := a] && u.resources == t.resources && (SeatOf(f), b) !in t.allocs
    requires TakenBy(t, g, earlier) && f != g
    ensures TakenBy(u, g, earlier)
  {
    SeatOfInjective(f, g);
    hide SeatOf, IdIn;
    assert On(u.allocs.Keys, SeatOf(g)) == On(t.allocs.Keys, SeatOf(g)) by {
      OnHas(u.allocs.Keys, SeatOf(g));
      OnHas(t.allocs.Keys, SeatOf(g));
      hide On;
    }
    hide On;
  }

  lemma StableKept(t: State, u: State, f: Name, p: Passenger, a: Alloc, done: seq<Passenger>, j: nat, flights: seq<Flight>)
    requires u.allocs == t.allocs[(SeatOf(f), p.id) := a] && u.resources == t.resources && (SeatOf(f), p.id) !in t.allocs
    requires HasRoom(t, f) && j < |done| && Stable(t, done, j, flights)
    ensures Stable(u, done + [p], j, flights)
  {
    hide Used, HasRoom, TakenBy, FlightLe;
    var d2 := done + [p];
    assert d2[j] == done[j] && d2[..j] == done[..j];
    forall g | g in d2[j].legal && Prefers(u, d2[j], g, flights) ensures TakenBy(u, g, d2[..j]) {
      assert forall h :: Sits(t, d2[j], h) ==> Sits(u, d2[j], h);
      assert Prefers(t, done[j], g, flights);
      assert f != g by { RoomIsNotTaken(t, f, done[..j]); }
      StillTaken(t, u, f, g, p.id, a, done[..j]);
    }
  }

  lemma RoomIsNotTaken(t: State, f: Name, earlier: seq<Passenger>)
    requires HasRoom(t, f)
    ensures !TakenBy(t, f, earlier)
  {}

  lemma StableNew(t: State, u: State, f: Name, p: Passenger, a: Alloc, done: seq<Passenger>, flights: seq<Flight>)
    requires u.allocs == t.allocs[(SeatOf(f), p.id) := a] && u.resources == t.resources && (SeatOf(f), p.id) !in t.allocs
    requires Sound(t) && Lawful(t, done)
    requires FirstOpen(t, SortBy(p.legal, ByArrival(flights))) == Some(f)
    requires forall g :: g in p.legal ==> SeatOf(g) in t.resources && t.resources[SeatOf(g)].group == Some(SEAT)
    ensures Stable(u, done + [p], |done|, flights)
  {
    hide Sound, Lawful, HasRoom, TakenBy, FirstOpen, FlightLe;
    var d2 := done + [p];
    assert d2[|done|] == p && d2[..|done|] == done;
    forall g | g in p.legal && Prefers(u, p, g, flights) ensures TakenBy(u, g, done) {
      assert Sits(u, p, f);
      if HasRoom(t, g) { PickIsBest(t, p, flights, g); }
      FullIsTaken(t, g, done);
      StillTaken(t, u, f, g, p.id, a, done);
    }
  }

  lemma StableUnseated(t: State, p: Passenger, done: seq<Passenger>, flights: seq<Flight>)
    requires Sound(t) && Lawful(t, done) && FirstOpen(t, SortBy(p.legal, ByArrival(flights))) == None
    requires forall g :: g in p.legal ==> SeatOf(g) in t.resources && t.resources[SeatOf(g)].group == Some(SEAT)
    ensures Stable(t, done + [p], |done|, flights)
  {
    hide Sound, Lawful, HasRoom, TakenBy, FlightLe;
    var d2 := done + [p];
    assert d2[|done|] == p && d2[..|done|] == done;
    SortByElems(p.legal, ByArrival(flights));
    forall g | g in p.legal ensures TakenBy(t, g, done) { FullIsTaken(t, g, done); }
  }

  lemma LawfulMore(t: State, done: seq<Passenger>, p: Passenger)
    requires Lawful(t, done)
    ensures Lawful(t, done + [p])
  {
    var d2 := done + [p];
    forall k | k in t.allocs && (t.allocs[k].group == Some(SEAT) || IsSeat(k.0))
      ensures exists j, f :: 0 <= j < |d2| && d2[j].id == k.1 && f in d2[j].legal && k.0 == SeatOf(f)
    {
      var j, f :| 0 <= j < |done| && done[j].id == k.1 && f in done[j].legal && k.0 == SeatOf(f);
      assert d2[j] == done[j];
    }
  }

  lemma LawfulSeat(t: State, u: State, done: seq<Passenger>, p: Passenger, f: Name, a: Alloc)
    requires Lawful(t, done) && f in p.legal && u.allocs == t.allocs[(SeatOf(f), p.id) := a]
    ensures Lawful(u, done + [p])
  {
    LawfulMore(t, done, p);
    var d2 := done + [p];
    assert d2[|done|] == p;
    hide SeatOf;
  }

  lemma NobodySeated(s: State, t: State, done: seq<Passenger>, p: Passenger, flights: seq<Flight>)
    requires Progress(s, t, done, flights) && FirstOpen(t, SortBy(p.legal, ByArrival(flights))) == None
    requires forall g :: g in p.legal ==> SeatOf(g) in s.resources && s.resources[SeatOf(g)].group == Some(SEAT)
    ensures Progress(s, t, done + [p], flights)
  {
    hide Sound, Lawful, Stable, HasRoom, FirstOpen, NoneBlocked;
    LawfulMore(t, done, p);
    var d2 := done + [p];
    forall j | 0 <= j < |d2| ensures Stable(t, d2, j, flights) {
      if j < |done| { StableLonger(t, done, p, j, flights); } else { StableUnseated(t, p, done, flights); }
    }
  }

  lemma OneSeated(s: State, t: State, u: State, done: seq<Passenger>, p: Passenger, f: Name, a: Alloc, flights: seq<Flight>)
    requires Progress(s, t, done, flights) && FirstOpen(t, SortBy(p.legal, ByArrival(flights))) == Some(f)
    requires forall g :: g in p.legal ==> SeatOf(g) in s.resources && s.resources[SeatOf(g)].group == Some(SEAT)
    requires u.resources == t.resources && u.allocs == t.allocs[(SeatOf(f), p.id) := a] && (SeatOf(f), p.id) !in t.allocs
    requires Sound(u) && NoneBlocked(s, u)
    ensures Progress(s, u, done + [p], flights)
  {
    hide Sound, Lawful, Stable, HasRoom, NoneBlocked, FirstOpen, SortBy, SeatOf, ByArrival;
    SortByElems(p.legal, ByArrival(flights));
    assert f in p.legal && HasRoom(t, f);
    LawfulSeat(t, u, done, p, f, a);
    var d2 := done + [p];
    forall j | 0 <= j < |d2| ensures Stable(u, d2, j, flights) {
      if j < |done| { StableKept(t, u, f, p, a, done, j, flights); } else { StableNew(t, u, f, p, a, done, flights); }
    }
  }

  lemma SubmitSound(t: State, c: Crypto, p: Proposal)
    requires Sound(t)
    ensures Sound(SubmitPlain(t, p, ROUND).state)
  {
    hide Sound, Evolves, SubmitPlain;
    SubmitGood(t, c, p, ROUND);
  }

  /** One more passenger. */
  lemma SeatOneProgress(s: State, r: Run, done: seq<Passenger>, p: Passenger, flights: seq<Flight>, c: Crypto)
    requires Progress(s, r.state, done, flights) && !IdIn(p.id, done)
    requires forall g :: g in p.legal ==> SeatOf(g) in s.resources && s.resources[SeatOf(g)].group == Some(SEAT)
    ensures Progress(s, SeatOne(r, p, flights).state, done + [p], flights)
  {
    hide Progress, Sound, HasRoom, SubmitPlain, FirstOpen, SortBy, Lawful;
    var t, u := r.state, SeatOne(r, p, flights).state;
    ProgressParts(s, t, done, flights);
    match FirstOpen(t, SortBy(p.legal, ByArrival(flights))) {
      case None =>
        NobodySeated(s, t, done, p, flights);
      case Some(f) =>
        NotSeated(t, done, p);
        SortByElems(p.legal, ByArrival(flights));
        SeatGranted(t, p, f);
        SubmitSound(t, c, SeatClaim(p, f));
        NoneBlockedStep(s, t, u, p, f);
        OneSeated(s, t, u, done, p, f, Alloc(t.claimSeq + 1, Some(SEAT)), flights);
    }
  }

  lemma ProgressParts(s: State, t: State, done: seq<Passenger>, flights: seq<Flight>)
    requires Progress(s, t, done, flights)
    ensures Sound(t) && t.resources == s.resources && Lawful(t, done) && NoneBlocked(s, t)
  {}

  lemma NotSeated(t: State, done: seq<Passenger>, p: Passenger)
    requires Lawful(t, done) && !IdIn(p.id, done)
    ensures forall k :: k in t.allocs && t.allocs[k].group == Some(SEAT) ==> k.1 != p.id
  {}

  lemma NoneBlockedStep(s: State, t: State, u: State, p: Passenger, f: Name)
    requires NoneBlocked(s, t) && u.claims == t.claims[t.claimSeq + 1 := Claim(SeatClaim(p, f), Granted, ROUND, Some(ROUND), None)]
    ensures NoneBlocked(s, u)
  {}

  lemma StableLonger(t: State, done: seq<Passenger>, p: Passenger, j: nat, flights: seq<Flight>)
    requires j < |done| && Stable(t, done, j, flights)
    ensures Stable(t, done + [p], j, flights)
  {
    assert (done + [p])[j] == done[j] && (done + [p])[..j] == done[..j];
  }

  // ---------------------------------------------------------------- the whole loop

  lemma {:induction false} SeatAllProgress(r: Run, order: seq<Passenger>, flights: seq<Flight>, c: Crypto)
    requires Boarding(r.state, order) && Distinct(order)
    ensures Progress(r.state, SeatAll(r, order, flights).state, order, flights)
    decreases |order|
  {
    hide Sound, SeatOne, Stable;
    if order != [] {
      var done, p := order[..|order|-1], order[|order|-1];
      SeatAllProgress(r, done, flights, c);
      assert done + [p] == order;
      assert p in order;
      assert !IdIn(p.id, done);
      SeatOneProgress(r.state, SeatAll(r, done, flights), done, p, flights, c);
    }
  }

  function Plan(r: Run, pax: seq<Passenger>, flights: seq<Flight>): Run {
    SeatAll(r, SortBy(pax, CommercialLe), flights)
  }

  /**
   * Stability: a legal flight that a passenger would prefer to the seat they got, or any legal flight if they got
   * none, ends full and held entirely by passengers earlier in commercial order. And no seat claim is ever blocked.
   */
  lemma PlannerIsStable(r: Run, pax: seq<Passenger>, flights: seq<Flight>, c: Crypto)
    requires Boarding(r.state, pax) && Distinct(pax)
    ensures var order, t := SortBy(pax, CommercialLe), Plan(r, pax, flights).state;
            && Sorted(order, CommercialLe) && multiset(order) == multiset(pax) && NoneBlocked(r.state, t) && Lawful(t, order)
            && (forall j :: 0 <= j < |order| ==> Stable(t, order, j, flights))
            && Sound(t) && t.resources == r.state.resources
  {
    hide Sound, SeatAll, Stable, Lawful, NoneBlocked, IsSeat, CommercialLe;
    var order := SortBy(pax, CommercialLe);
    CommercialOrder();
    SortBySorted(pax, CommercialLe);
    SortByElems(pax, CommercialLe);
    SortedDistinct(pax, CommercialLe);
    SeatAllProgress(r, order, flights, c);
  }

  lemma CommercialOrder()
    ensures Total(CommercialLe) && Transitive(CommercialLe)
  {}

  // ---------------------------------------------------------------- half of the optimum

  /** Passengers to flights: legal for each, and within every flight's capacity. */
  ghost predicate Feasible(s: State, pax: seq<Passenger>, a: map<Name, Name>) {
    && (forall b :: b in a ==> exists p :: p in pax && p.id == b && a[b] in p.legal)
    && (forall f :: SeatOf(f) in s.resources ==> |Riders(a, f)| <= s.resources[SeatOf(f)].capacity)
  }

  function Riders(a: map<Name, Name>, f: Name): set<Name> {
    set b | b in a && a[b] == f
  }

  function RidersIn(a: map<Name, Name>, fs: set<Name>): set<Name> {
    set b | b in a && a[b] in fs
  }

  function CellsIn(cells: set<Cell>, fs: set<Name>): set<Cell> {
    set k | k in cells && exists f :: f in fs && k.0 == SeatOf(f)
  }

  function SeatCells(s: State): set<Cell> {
    set k | k in s.allocs.Keys && IsSeat(k.0)
  }

  /** Everyone holding a seat. */
  function SeatedIds(s: State): set<Name> {
    set k | k in s.allocs.Keys && IsSeat(k.0) :: k.1
  }

  function Holding(cells: set<Cell>): set<Name> {
    set k | k in cells :: k.1
  }

  lemma {:induction false} InjectiveCard(cells: set<Cell>)
    requires forall j, k :: j in cells && k in cells && j.1 == k.1 ==> j == k
    ensures |Holding(cells)| == |cells|
    decreases |cells|
  {
    if cells != {} {
      var k :| k in cells;
      InjectiveCard(cells - {k});
      assert Holding(cells) == Holding(cells - {k}) + {k.1};
      assert k.1 !in Holding(cells - {k});
    }
  }

  lemma OneFlight(cells: set<Cell>, f: Name)
    ensures |set k | k in cells && k.0 == SeatOf(f)| == |On(cells, SeatOf(f))|
  {
    var c := set k | k in cells && k.0 == SeatOf(f);
    InjectiveCard(c);
    assert Holding(c) == On(cells, SeatOf(f));
  }

  /** If each flight of `fs` carries at least its riders, all of them together do. */
  lemma {:induction false} Packed(a: map<Name, Name>, fs: set<Name>, cells: set<Cell>)
    requires forall f :: f in fs ==> |Riders(a, f)| <= |On(cells, SeatOf(f))|
    ensures |RidersIn(a, fs)| <= |CellsIn(cells, fs)|
    decreases |fs|
  {
    if fs == {} {
      assert RidersIn(a, fs) == {};
    } else {
      var f :| f in fs;
      var rest := fs - {f};
      Packed(a, rest, cells);
      var c := set k | k in cells && k.0 == SeatOf(f);
      OneFlight(cells, f);
      assert RidersIn(a, fs) == RidersIn(a, rest) + Riders(a, f);
      assert fs == rest + {f};
      CellsSplit(cells, rest, f, c);
      hide On, SeatOf, CellsIn;
    }
  }

  lemma CellsSplit(cells: set<Cell>, rest: set<Name>, f: Name, c: set<Cell>)
    requires f !in rest && c == set k | k in cells && k.0 == SeatOf(f)
    ensures CellsIn(cells, rest + {f}) == CellsIn(cells, rest) + c && CellsIn(cells, rest) !! c
  {
    forall g, h ensures SeatOf(g) == SeatOf(h) ==> g == h { SeatOfInjective(g, h); }
    hide SeatOf;
  }

  /** The flights the unseated would have taken. */
  function Wanted(s: State, a: map<Name, Name>): set<Name> {
    set b | b in a.Keys && b !in SeatedIds(s) :: a[b]
  }

  lemma NoSeat(t: State, p: Passenger)
    requires p.id !in SeatedIds(t)
    ensures forall g :: !Sits(t, p, g)
  {
    forall g ensures IsSeat(SeatOf(g)) { SeatOfInjective(g, g); }
    hide SeatOf, IsSeat;
    forall g ensures !Sits(t, p, g) {
      var k := (SeatOf(g), p.id);
      assert k in t.allocs.Keys && IsSeat(k.0) ==> k.1 in SeatedIds(t);
    }
  }

  lemma WantedIsFull(s: State, t: State, pax: seq<Passenger>, order: seq<Passenger>, a: map<Name, Name>, flights: seq<Flight>, b: Name)
    requires Feasible(s, pax, a) && b in a && b !in SeatedIds(t) && t.resources == s.resources
    requires multiset(order) == multiset(pax) && forall j :: 0 <= j < |order| ==> Stable(t, order, j, flights)
    ensures |Riders(a, a[b])| <= |On(t.allocs.Keys, SeatOf(a[b]))|
  {
    hide Riders, On, IsSeat, FlightLe;
    var p :| p in pax && p.id == b && a[b] in p.legal;
    assert p in multiset(order);
    var j :| 0 <= j < |order| && order[j] == p;
    NoSeat(t, p);
    assert Prefers(t, p, a[b], flights);
    assert Stable(t, order, j, flights);
    assert TakenBy(t, a[b], order[..j]);
  }

  lemma SeatCellsCount(t: State, order: seq<Passenger>)
    requires Sound(t) && Lawful(t, order)
    requires forall p, f :: p in order && f in p.legal ==> SeatOf(f) in t.resources && t.resources[SeatOf(f)].group == Some(SEAT)
    ensures |SeatCells(t)| == |SeatedIds(t)|
  {
    hide Within, Filed, IsSeat, SeatOf;
    var cells := SeatCells(t);
    forall k | k in cells ensures t.allocs[k].group == Some(SEAT) {
      var j, f :| 0 <= j < |order| && order[j].id == k.1 && f in order[j].legal && k.0 == SeatOf(f);
      assert order[j] in order;
    }
    forall j, k | j in cells && k in cells && j.1 == k.1 ensures j == k {
      assert SameUnit(t.allocs, j, k);
    }
    InjectiveCard(cells);
    assert Holding(cells) == SeatedIds(t);
  }

  /** The planner seats at least half as many as any feasible assignment. */
  lemma PlannerSeatsHalf(r: Run, pax: seq<Passenger>, flights: seq<Flight>, c: Crypto, a: map<Name, Name>)
    requires Boarding(r.state, pax) && Distinct(pax) && Feasible(r.state, pax, a)
    ensures |a| <= 2 * |SeatedIds(Plan(r, pax, flights).state)|
  {
    hide Sound, Plan, Stable, Lawful, NoneBlocked, IsSeat, CommercialLe, SortBy, Riders, On, Feasible, SeatedIds, SeatCells, SeatOf;
    PlannerIsStable(r, pax, flights, c);
    var order, t := SortBy(pax, CommercialLe), Plan(r, pax, flights).state;
    var cells, fs := t.allocs.Keys, Wanted(t, a);
    forall f | f in fs ensures |Riders(a, f)| <= |On(cells, SeatOf(f))| {
      var b :| b in a.Keys && b !in SeatedIds(t) && a[b] == f;
      WantedIsFull(r.state, t, pax, order, a, flights, b);
    }
    Packed(a, fs, cells);
    forall p | p in order ensures p in pax { assert p in multiset(order); }
    SeatCellsCount(t, order);
    CellsInSeats(t, fs);
    CardMono(CellsIn(cells, fs), SeatCells(t));
    assert a.Keys <= RidersIn(a, fs) + SeatedIds(t);
    CardMono(a.Keys, RidersIn(a, fs) + SeatedIds(t));
    assert |RidersIn(a, fs) + SeatedIds(t)| <= |RidersIn(a, fs)| + |SeatedIds(t)|;
  }

  lemma CellsInSeats(t: State, fs: set<Name>)
    ensures CellsIn(t.allocs.Keys, fs) <= SeatCells(t)
  {
    forall f ensures IsSeat(SeatOf(f)) { SeatOfInjective(f, f); }
    hide IsSeat, SeatOf;
  }
}
