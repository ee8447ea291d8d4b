/** The results screen: the stops, airline and price filters composed by "and", the
    "all or specific values" checkbox lists, the Reset button, and the filtered, sorted
    list of offers shown. */
module FlightResults {
  import opened Text
  import opened Seqs
  import opened Flights
  import opened FlightSort

  /** The sentinel that stands for "no filtering" in a checkbox list. */
  const All := "all"

  /** The price range the screen starts with and Reset restores. */
  const PriceFloor := 0
  const PriceCeiling := 50000

  /** `selectedStops.includes(flight.stops.toString())`. */
  function StopsMatch(selected: seq<string>): Flight -> bool {
    (f: Flight) => NatToString(f.stops) in selected
  }

  /** `selectedAirlines.includes(flight.airline)`. */
  function AirlineMatch(selected: seq<string>): Flight -> bool {
    (f: Flight) => f.airline in selected
  }

  /** `flight.price >= priceRange[0] && flight.price <= priceRange[1]`. */
  function PriceMatch(low: int, high: int): Flight -> bool {
    (f: Flight) => low <= f.price <= high
  }

  /** The stop filter in force: none when the selection holds "all". */
  function StopsFilter(selected: seq<string>): Flight -> bool {
    (f: Flight) => All in selected || StopsMatch(selected)(f)
  }

  /** The stop and airline filters together. */
  function StopsAndAirline(stops: seq<string>, airlines: seq<string>): Flight -> bool {
    (f: Flight) => StopsFilter(stops)(f) && (All in airlines || AirlineMatch(airlines)(f))
  }

  /** An offer is shown when it passes the stop filter, the airline filter and the
      price range, inclusive at both ends; a list holding "all" filters nothing. */
  function Qualifying(stops: seq<string>, airlines: seq<string>, low: int, high: int): Flight -> bool {
    (f: Flight) => StopsAndAirline(stops, airlines)(f) && PriceMatch(low, high)(f)
  }

  /** The list the screen shows for the given filter state. */
  function Shown(flights: seq<Flight>, stops: seq<string>, airlines: seq<string>, low: int, high: int,
                 order: SortOrder): seq<Flight>
  {
    Sort(Filter(flights, Qualifying(stops, airlines, low, high)), order)
  }

  /** Showing the shown list again under the same filters and order changes nothing. */
  lemma ShownIsIdempotent(flights: seq<Flight>, stops: seq<string>, airlines: seq<string>,
                          low: int, high: int, order: SortOrder)
    ensures var r := Shown(flights, stops, airlines, low, high, order);
      Shown(r, stops, airlines, low, high, order) == r
  {
    var q := Qualifying(stops, airlines, low, high);
    var r := Shown(flights, stops, airlines, low, high, order);
    FilterMembers(flights, q);
    forall i | 0 <= i < |r|
      ensures q(r[i])
    {
      assert r[i] in multiset(r);
    }
    FilterKeepsAll(r, q);
    SortOfSorted(r, order);
  }

  /** `filteredAndSortedFlights`, written the way the screen computes it: the stop filter
      unless "all" is selected, the airline filter unless "all" is selected, the price
      filter, then the sort. The result holds exactly the qualifying offers, each as often
      as in the input, in non-decreasing order of the key, tied offers in input order. */
  method FilterAndSort(flights: seq<Flight>, stops: seq<string>, airlines: seq<string>,
                       low: int, high: int, order: SortOrder)
    returns (result: seq<Flight>)
    ensures result == Shown(flights, stops, airlines, low, high, order)
    ensures Sorted(order, result)
    ensures forall f ::
      multiset(result)[f] == (if Qualifying(stops, airlines, low, high)(f) then multiset(flights)[f] else 0)
    ensures forall g :: Ties(result, order, g) == Ties(Filter(flights, Qualifying(stops, airlines, low, high)), order, g)
  {
    result := flights;
    if All !in stops {
      result := Filter(result, StopsMatch(stops));
      FilterSame(flights, StopsMatch(stops), StopsFilter(stops));
    } else {
      FilterKeepsAll(flights, StopsFilter(stops));
    }
    assert result == Filter(flights, StopsFilter(stops));
    if All !in airlines {
      result := Filter(result, AirlineMatch(airlines));
      FilterCompose(flights, StopsFilter(stops), AirlineMatch(airlines), StopsAndAirline(stops, airlines));
    } else {
      FilterSame(flights, StopsFilter(stops), StopsAndAirline(stops, airlines));
    }
    assert result == Filter(flights, StopsAndAirline(stops, airlines));
    result := Filter(result, PriceMatch(low, high));
    FilterCompose(flights, StopsAndAirline(stops, airlines), PriceMatch(low, high), Qualifying(stops, airlines, low, high));
    ghost var kept := result;
    result := Sort(result, order);
    forall f
      ensures multiset(result)[f] == if Qualifying(stops, airlines, low, high)(f) then multiset(flights)[f] else 0
    {
      FilterMultiset(flights, Qualifying(stops, airlines, low, high), f);
    }
    forall g
      ensures Ties(result, order, g) == Ties(kept, order, g)
    {
      SortIsStable(kept, order, g);
    }
  }

  /** `s.filter(x => x !== v)`. */
  function Without(s: seq<string>, v: string): seq<string> {
    Filter(s, (x: string) => x != v)
  }

  /** `s.filter(x => x !== v)` holds the values of s other than v. */
  lemma WithoutMembers(s: seq<string>, v: string)
    ensures forall x :: x in Without(s, v) <==> x in s && x != v
  {
    FilterMembers(s, (x: string) => x != v);
  }

  /** No value occurs twice. */
  predicate NoDuplicates(s: seq<string>) {
    forall x | x in s :: multiset(s)[x] <= 1
  }

  /** A checkbox list as the screen keeps it: exactly ["all"], or specific values
      without "all", none twice. */
  predicate WellFormedSelection(s: seq<string>) {
    s == [All] || (|s| > 0 && All !in s && NoDuplicates(s))
  }

  /** The `onChange` of a checkbox of the stops or airlines list: picking "all" selects only
      "all"; checking a specific value drops "all" and appends it; unchecking removes it;
      a list left empty becomes ["all"]. */
  function Toggle(selected: seq<string>, value: string, checked: bool): (r: seq<string>)
    ensures value == All ==> r == [All]
    ensures value != All && checked ==>
      value in r && All !in r && forall v :: v in selected && v != All ==> v in r
    ensures value != All && checked ==>
      r[|r| - 1] == value && forall v :: v in r <==> v == value || (v in selected && v != All)
    ensures value != All && !checked ==>
      value !in r || r == [All]
    ensures value != All && !checked && r != [All] ==>
      forall v :: v in r <==> v in selected && v != value
    ensures value != All && !checked && (exists v :: v in selected && v != value) ==> r != [All] || All in selected
    ensures |r| > 0
  {
    WithoutMembers(selected, All);
    WithoutMembers(selected, value);
    if value == All then [All]
    else
      var next := if checked then Without(selected, All) + [value] else Without(selected, value);
      if |next| > 0 then next else [All]
  }

  /** The browser reports a click on a checkbox as checked exactly when the value was not
      selected. Clicking any checkbox keeps a well-formed selection well-formed, so "all"
      and specific values are never selected together. */
  lemma ClickKeepsWellFormed(selected: seq<string>, value: string)
    requires WellFormedSelection(selected)
    ensures WellFormedSelection(Toggle(selected, value, value !in selected))
  {
    var checked := value !in selected;
    var r := Toggle(selected, value, checked);
    if value != All {
      if checked {
        var rest := Without(selected, All);
        forall x
          ensures multiset(r)[x] <= 1
        {
          FilterMultiset(selected, y => y != All, x);
          if x == value {
            assert x !in rest;
          }
        }
      } else if r != [All] {
        forall x
          ensures multiset(r)[x] <= 1
        {
          FilterMultiset(selected, y => y != value, x);
        }
      }
    }
  }

  /** The filter and sort state of the results screen over its generated offers. */
  class ResultsPage {
    var flights: seq<Flight>
    var sortBy: SortOrder
    var selectedStops: seq<string>
    var selectedAirlines: seq<string>
    var priceLow: int
    var priceHigh: int

    ghost predicate Valid()
      reads this
    {
      WellFormedSelection(selectedStops) && WellFormedSelection(selectedAirlines)
    }

    /** Stops and airlines "all", price range [0, 50000]. */
    predicate IsReset()
      reads this
      ensures IsReset() ==> Valid()
    {
      selectedStops == [All] && selectedAirlines == [All]
      && priceLow == PriceFloor && priceHigh == PriceCeiling
    }

    /** The screen as it first renders, once the generator has produced its offers:
        cheapest first and no filter. */
    constructor (travelClass: string, from: string, to: string, draws: seq<Draws>)
      requires |draws| == FlightCount
      ensures Valid() && IsReset() && sortBy == Cheapest
      ensures |flights| == FlightCount
      ensures forall i | 0 <= i < |flights| :: flights[i] == MockFlight(i, travelClass, from, to, draws[i])
    {
      var generated := GenerateMockFlights(travelClass, from, to, draws);
      flights := generated;
      sortBy := Cheapest;
      selectedStops := [All];
      selectedAirlines := [All];
      priceLow, priceHigh := PriceFloor, PriceCeiling;
    }

    /** A click on the checkbox of a stop count ("all", "0", "1" or "2"). */
    method ClickStops(stop: string)
      requires Valid()
      modifies this`selectedStops
      ensures Valid()
      ensures selectedStops == Toggle(old(selectedStops), stop, stop !in old(selectedStops))
    {
      ClickKeepsWellFormed(selectedStops, stop);
      selectedStops := Toggle(selectedStops, stop, stop !in selectedStops);
    }

    /** A click on the checkbox of an airline name, or of "all". */
    method ClickAirline(airline: string)
      requires Valid()
      modifies this`selectedAirlines
      ensures Valid()
      ensures selectedAirlines == Toggle(old(selectedAirlines), airline, airline !in old(selectedAirlines))
    {
      ClickKeepsWellFormed(selectedAirlines, airline);
      selectedAirlines := Toggle(selectedAirlines, airline, airline !in selectedAirlines);
    }

    /** The sort selector. */
    method SetSortBy(order: SortOrder)
      requires Valid()
      modifies this`sortBy
      ensures Valid() && sortBy == order
    {
      sortBy := order;
    }

    /** The Reset button: the filters return to their initial state; the offers and the
        sort order stay. */
    method Reset()
      modifies this`selectedStops, this`selectedAirlines, this`priceLow, this`priceHigh
      ensures Valid() && IsReset()
    {
      selectedStops := [All];
      selectedAirlines := [All];
      priceLow, priceHigh := PriceFloor, PriceCeiling;
    }

    /** The list the screen renders for its current state. */
    method FilteredAndSortedFlights() returns (result: seq<Flight>)
      ensures result == Shown(flights, selectedStops, selectedAirlines, priceLow, priceHigh, sortBy)
      ensures Sorted(sortBy, result)
      ensures forall f :: f in result <==>
        f in flights && Qualifying(selectedStops, selectedAirlines, priceLow, priceHigh)(f)
    {
      result := FilterAndSort(flights, selectedStops, selectedAirlines, priceLow, priceHigh, sortBy);
    }
  }
}
