/** The airline scenario: passengers, flights, and the resources the storm makes scarce. */
module Scenario {
  import opened Order
  import opened Schemas

  datatype Passenger =
    Passenger(id: Name, flags: seq<string>, fare: string, elite: bool, booking: int, legal: seq<Name>)

  datatype Flight = Flight(id: Name, dep: int, arr: int, seats: nat)

  datatype Storm = Storm(
    flights: seq<Flight>, crews: seq<Name>, gates: seq<Name>, hotel: nat, pax: seq<Passenger>)

  const SEAT: Name := "seat"
  const SEAT_PREFIX: Name := "seat:"
  const FERRY: Name := "crew:FERRY-1"
  const HOTEL: Name := "hotel:block"
  const HOTEL_GROUP: Name := "hotel"
  const CREW_PREFIX: Name := "crew:"
  const GATE_PREFIX: Name := "gate:"

  function SeatOf(flight: Name): Name {
    SEAT_PREFIX + flight
  }

  function GateOf(gate: Name): Name {
    GATE_PREFIX + gate
  }

  predicate DepartureLe(f: Flight, g: Flight) {
    if f.dep != g.dep then f.dep < g.dep else NameLe(f.id, g.id)
  }

  predicate StartsWith(s: string, prefix: string) {
    |prefix| <= |s| && s[..|prefix|] == prefix
  }

  predicate IsSeat(r: Name) {
    StartsWith(r, SEAT_PREFIX)
  }

  lemma SeatOfInjective(f: Name, g: Name)
    ensures IsSeat(SeatOf(f)) && (SeatOf(f) == SeatOf(g) ==> f == g)
  {
    assert SeatOf(f)[5..] == f && SeatOf(g)[5..] == g;
  }

  /** 0 is most protected: MED, UM, WCHR, TC, elite, then everyone else. */
  function Priority(p: Passenger): nat {
    if "MED" in p.flags then 0
    else if "UM" in p.flags then 1
    else if "WCHR" in p.flags then 2
    else if "TC" in p.flags then 3
    else if p.elite then 4
    else 5
  }

  predicate Distinct(pax: seq<Passenger>) {
    forall i, j :: 0 <= i < j < |pax| ==> pax[i].id != pax[j].id
  }

  lemma SortedDistinct(pax: seq<Passenger>, le: (Passenger, Passenger) -> bool)
    requires Distinct(pax)
    ensures Distinct(SortBy(pax, le)) && forall p :: p in SortBy(pax, le) <==> p in pax
  {
    SortByElems(pax, le);
    var r := SortBy(pax, le);
    assert NoDup(pax);
    forall i, j | 0 <= i < j < |r| ensures r[i].id != r[j].id {
      assert r[i] in pax && r[j] in pax && r[i] != r[j];
    }
  }
}
