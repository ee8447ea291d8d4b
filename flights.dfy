/** The candidate flights of the results screen: the airline table, the fare of each
    cabin class and the generator of the twelve mock offers. The generator's calls to
    `Math.random()` are parameters: each is a real number in [0, 1). */
module Flights {
  import opened Wrappers
  import opened Text
  import opened Seqs

  /** An airline identity: name, two-character code and logo glyph. */
  datatype Airline = Airline(name: string, code: string, logo: string)

  /** The six airlines the generator cycles through, in order. */
  const Airlines: seq<Airline> := [
    Airline("IndiGo", "6E", "\U{1F535}"),
    Airline("Air India", "AI", "\U{1F534}"),
    Airline("SpiceJet", "SG", "\U{1F534}"),
    Airline("Vistara", "UK", "\U{1F7E3}"),
    Airline("AirAsia India", "I5", "\U{1F534}"),
    Airline("Go First", "G8", "\U{1F7E1}")
  ]

  /** The number of offers generated per results view. */
  const FlightCount: nat := 12

  /** One value of `Math.random()`. */
  type Unit = r: real | 0.0 <= r < 1.0

  /** The seven random values drawn for one offer, in the order the generator draws them. */
  datatype Draws = Draws(stops: Unit, hour: Unit, duration: Unit, price: Unit,
                         departureMinute: Unit, arrivalMinute: Unit, seats: Unit)

  /** One offer. The duration is kept as whole hours and minutes; its text is DurationText. */
  datatype Flight = Flight(
    id: string,
    airline: string,
    airlineCode: string,
    airlineLogo: string,
    flightNumber: string,
    from: string,
    to: string,
    departureTime: string,
    arrivalTime: string,
    durationHours: nat,
    durationMinutes: nat,
    stops: nat,
    price: int,
    seatsLeft: int,
    travelClass: string)

  /** The duration as the results screen shows it: "{hours}h {minutes}m". */
  function DurationText(f: Flight): string {
    NatToString(f.durationHours) + "h " + NatToString(f.durationMinutes) + "m"
  }

  /** `parseFloat(flight.duration)`, the key of the "fastest" order, is the whole-hour count:
      the number stops at the 'h'. */
  lemma DurationParsesToHours(f: Flight)
    ensures ParseLeadingInt(DurationText(f)) == Some(f.durationHours)
  {
    var rest := "h " + NatToString(f.durationMinutes) + "m";
    assert DurationText(f) == NatToString(f.durationHours) + rest;
    ParseNatToString(f.durationHours, rest);
  }

  /** The generator's base fare per cabin class. */
  function BaseFare(travelClass: string): (fare: int)
    ensures fare in {3000, 6000, 12000, 25000}
    ensures fare == 3000 <==> travelClass == "economy"
    ensures fare == 6000 <==> travelClass == "premium-economy"
    ensures fare == 12000 <==> travelClass == "business"
  {
    if travelClass == "economy" then 3000
    else if travelClass == "premium-economy" then 6000
    else if travelClass == "business" then 12000
    else 25000
  }

  /** `Math.floor(r * n)` for a random r: an integer in [0, n). */
  function Pick(r: Unit, n: nat): (k: nat)
    requires n > 0
    ensures k < n
  {
    assert 0.0 <= r * (n as real) < n as real;
    (r * (n as real)).Floor
  }

  /** The flight time `1 + r * 3 + stops * 1.5` hours, as whole hours and the whole minutes
      of the fraction. */
  function Duration(r: Unit, stops: nat): (hm: (nat, nat))
    requires stops <= 2
    ensures 1 <= hm.0 < 7 && hm.1 < 60
  {
    var duration: real := 1.0 + r * 3.0 + (stops as real) * 1.5;
    var hours := duration.Floor;
    var fraction := duration - (hours as real);
    (hours, (fraction * 60.0).Floor)
  }

  /** `Math.floor(r * base * 0.8)`: the random part of a fare, below 80% of the base. */
  function Surcharge(r: Unit, base: nat): (extra: nat)
    requires base > 0
    ensures 5 * extra < 4 * base
  {
    var x: real := r * (base as real) * 0.8;
    assert 0.0 <= x < (base as real) * 0.8;
    x.Floor
  }

  /** `"HH:MM"` from an hour and a minute, each padded to two digits. */
  function ClockText(hour: nat, minute: nat): string {
    Pad2(hour) + ":" + Pad2(minute)
  }

  /** Offer i of the generator, for the given class, route and random values. */
  function MockFlight(i: nat, travelClass: string, from: string, to: string, d: Draws): Flight
  {
    var airline := Airlines[i % 6];
    var stopCount := Pick(d.stops, 3);
    var departureHour := 6 + Pick(d.hour, 16);
    var (hours, minutes) := Duration(d.duration, stopCount);
    var base := BaseFare(travelClass);
    var price := base + Surcharge(d.price, base);
    var departureMinute := Pick(d.departureMinute, 60);
    var arrivalHour := (departureHour + hours) % 24;
    Flight(
      "FL" + NatToString(1000 + i),
      airline.name,
      airline.code,
      airline.logo,
      airline.code + NatToString(200 + i),
      ToUpperAscii(from),
      ToUpperAscii(to),
      ClockText(departureHour, departureMinute),
      ClockText(arrivalHour, Pick(d.arrivalMinute, 60)),
      hours,
      minutes,
      stopCount,
      price,
      Pick(d.seats, 20) + 5,
      travelClass)
  }

  /** Offer i has id "FL" + (1000 + i), the airline at i % 6 in the cycle and its code
      followed by 200 + i as flight number, a price from the class's base fare up to
      1.8 times it, at most two stops, a duration of one to six hours and some minutes, 5 to
      24 seats left, a departure between 06:00 and 21:59, and the upper-cased route. */
  lemma MockFlightFacts(i: nat, travelClass: string, from: string, to: string, d: Draws)
    ensures var f := MockFlight(i, travelClass, from, to, d);
      && f.id == "FL" + NatToString(1000 + i)
      && f.airline == Airlines[i % 6].name && f.airlineCode == Airlines[i % 6].code
      && f.flightNumber == Airlines[i % 6].code + NatToString(200 + i)
      && BaseFare(travelClass) <= f.price && 5 * f.price < 9 * BaseFare(travelClass)
      && f.stops <= 2
      && 1 <= f.durationHours < 7 && f.durationMinutes < 60
      && 5 <= f.seatsLeft < 25
      && (exists h: nat, m: nat :: 6 <= h < 22 && m < 60 && f.departureTime == ClockText(h, m))
      && f.from == ToUpperAscii(from) && f.to == ToUpperAscii(to) && f.travelClass == travelClass
  {
  }

  /** `generateMockFlights`: twelve offers, offer i drawn with draws[i], each with the
      properties MockFlightFacts states. */
  method GenerateMockFlights(travelClass: string, from: string, to: string, draws: seq<Draws>)
    returns (flights: seq<Flight>)
    requires |draws| == FlightCount
    ensures |flights| == FlightCount
    ensures forall i | 0 <= i < |flights| :: flights[i] == MockFlight(i, travelClass, from, to, draws[i])
  {
    var offer := (j: nat) requires j < |draws| => MockFlight(j, travelClass, from, to, draws[j]);
    flights := Collect(FlightCount, offer);
    forall j | 0 <= j < FlightCount
      ensures flights[j] == MockFlight(j, travelClass, from, to, draws[j])
    {
      TabulateAt(FlightCount, j, offer);
    }
  }

  /** Generated ids are distinct. */
  lemma MockIdsDistinct(i: nat, j: nat)
    requires i != j
    ensures "FL" + NatToString(1000 + i) != "FL" + NatToString(1000 + j)
  {
    if "FL" + NatToString(1000 + i) == "FL" + NatToString(1000 + j) {
      assert ("FL" + NatToString(1000 + i))[2..] == NatToString(1000 + i);
      assert ("FL" + NatToString(1000 + j))[2..] == NatToString(1000 + j);
      NatToStringInjective(1000 + i, 1000 + j);
    }
  }
}
