/** The flight-details page: the offer resolved from its id, route and class, and the fare
    summary. Amounts are in tenths of a rupee, as on the checkout screen. */
module FlightDetails {
  import opened Wrappers
  import opened Text
  import opened Numeric
  import Flights
  import Checkout

  /** The details page's own airline table, keyed by offer id. */
  const DetailsAirlines: map<string, Flights.Airline> := map[
    "FL1000" := Flights.Airline("IndiGo", "6E", "\U{1F535}"),
    "FL1001" := Flights.Airline("Air India", "AI", "\U{1F534}"),
    "FL1002" := Flights.Airline("SpiceJet", "SG", "\U{1F534}"),
    "FL1003" := Flights.Airline("Vistara", "UK", "\U{1F7E3}"),
    "FL1004" := Flights.Airline("AirAsia India", "I5", "\U{1F534}"),
    "FL1005" := Flights.Airline("Go First", "G8", "\U{1F7E1}")
  ]

  /** The id the results generator gives its offer i. */
  function GeneratedId(i: nat): string {
    "FL" + NatToString(1000 + i)
  }

  /** `airlines[flightId] || airlines['FL1000']`: a known id's airline, IndiGo otherwise. */
  function AirlineFor(flightId: string): (a: Flights.Airline)
    ensures flightId in DetailsAirlines ==> a == DetailsAirlines[flightId]
    ensures flightId !in DetailsAirlines ==> a == Flights.Airlines[0]
  {
    if flightId in DetailsAirlines then DetailsAirlines[flightId] else DetailsAirlines["FL1000"]
  }

  /** `200 + (n % 100)` as text, or "NaN" when `parseInt` found no number. */
  function SuffixFor(parsed: Option<int>): (s: string)
    ensures s == "NaN" <==> parsed.None?
    ensures s != "NaN" ==> AllDigits(s)
  {
    match parsed
    case None => "NaN"
    case Some(n) =>
      var digits := NatToString((200 + TruncRem(n, 100)) as nat);
      NatToStringDigits((200 + TruncRem(n, 100)) as nat);
      assert IsDigit(digits[0]) && !IsDigit("NaN"[0]);
      digits
  }

  /** The digits after `FL` in the id, read by `parseInt`, reduced by the truncating `% 100`
      and added to 200; "NaN" when no number can be read. */
  function FlightNumberSuffix(flightId: string): (s: string)
    ensures s == "NaN" <==> ParseLeadingInt(ReplaceFirst(flightId, "FL", "")).None?
  {
    SuffixFor(ParseLeadingInt(ReplaceFirst(flightId, "FL", "")))
  }

  /** Checked-in baggage allowance in kilograms per cabin class. */
  function CheckinKg(travelClass: string): (kg: nat)
    ensures kg in {15, 20, 30}
    ensures kg == 15 <==> travelClass == "economy"
    ensures kg == 20 <==> travelClass == "premium-economy"
  {
    if travelClass == "economy" then 15 else if travelClass == "premium-economy" then 20 else 30
  }

  /** Cabin baggage allowance in kilograms, for every class. */
  const CabinKg: nat := 7

  /** `param?.toUpperCase() || fallback`: the upper-cased parameter, or the fallback when
      it is absent or empty. */
  function CityCode(param: Option<string>, fallback: string): (code: string)
    ensures param.None? || param == Some("") ==> code == fallback
    ensures param.Some? && param.value != "" ==> code == ToUpperAscii(param.value)
  {
    match param
    case None => fallback
    case Some(city) => if city == "" then fallback else ToUpperAscii(city)
  }

  /** The offer the page shows. */
  datatype Details = Details(
    id: string,
    airline: string,
    airlineCode: string,
    airlineLogo: string,
    flightNumber: string,
    from: string,
    to: string,
    departureTime: string,
    arrivalTime: string,
    durationHours: nat,
    durationMinutes: nat,
    stops: nat,
    price: nat,
    seatsLeft: nat,
    travelClass: string,
    aircraft: string,
    checkinKg: nat,
    cabinKg: nat)

  /** `getFlightDetails`. Without a flight id the page fails (the id's `replace` is called
      on null), which is the absent result. Otherwise the airline comes from the table,
      the flight number is the airline code followed by the suffix, the route defaults
      to DEL to BOM, and the fare and baggage follow the class. */
  function GetFlightDetails(flightId: Option<string>, origin: Option<string>, destination: Option<string>,
                            travelClass: string): (r: Option<Details>)
    ensures r.None? <==> flightId.None?
    ensures r.Some? ==>
      && r.value.id == flightId.value
      && r.value.airline == AirlineFor(flightId.value).name
      && r.value.airlineCode == AirlineFor(flightId.value).code
      && r.value.flightNumber == AirlineFor(flightId.value).code + FlightNumberSuffix(flightId.value)
      && r.value.from == CityCode(origin, "DEL") && r.value.to == CityCode(destination, "BOM")
      && r.value.price == Checkout.CheckoutFare(travelClass)
      && r.value.checkinKg == CheckinKg(travelClass) && r.value.cabinKg == CabinKg
      && r.value.stops == 0 && r.value.seatsLeft == 12
  {
    match flightId
    case None => None
    case Some(id) =>
      var airline := AirlineFor(id);
      Some(Details(
        id,
        airline.name,
        airline.code,
        airline.logo,
        airline.code + FlightNumberSuffix(id),
        CityCode(origin, "DEL"),
        CityCode(destination, "BOM"),
        "10:30",
        "12:45",
        2,
        15,
        0,
        Checkout.CheckoutFare(travelClass),
        12,
        travelClass,
        "Airbus A320",
        CheckinKg(travelClass),
        CabinKg))
  }

  /** `totalPrice = price * (adults + children + infants * 0.1)`, in tenths. */
  function TotalPrice(fare: nat, adults: nat, children: nat, infants: nat): (tenths: nat)
    ensures tenths == Checkout.BasePrice(fare, adults, children, infants)
  {
    SplitTotal(fare, adults, children, infants);
    fare * (10 * adults + 10 * children + infants)
  }

  lemma SplitTotal(fare: nat, adults: nat, children: nat, infants: nat)
    ensures fare * (10 * adults + 10 * children + infants) == 10 * fare * (adults + children) + fare * infants
  {
  }

  /** The fare summary: the fare of the adults and children, the infant fare line (only
      when there are infants), taxes and the total, each in tenths. */
  datatype Summary = Summary(baseFare: nat, infantFare: Option<nat>, taxes: int, total: int)

  function PriceSummary(fare: nat, adults: nat, children: nat, infants: nat): (s: Summary)
    ensures s.baseFare == 10 * fare * (adults + children)
    ensures s.infantFare.Some? <==> infants > 0
    ensures s.baseFare + s.infantFare.GetOr(0) == TotalPrice(fare, adults, children, infants)
    ensures s.taxes == Checkout.Taxes(TotalPrice(fare, adults, children, infants))
    ensures s.total % 10 == 0
    ensures 200 * s.total - 1000 <= 224 * TotalPrice(fare, adults, children, infants) < 200 * s.total + 1000
  {
    var total := TotalPrice(fare, adults, children, infants);
    Summary(
      10 * fare * (adults + children),
      if infants > 0 then Some(fare * infants) else None,
      Checkout.Taxes(total),
      WithTaxes(total))
  }

  /** `Math.round(totalPrice * 1.12)` for a total in tenths, as tenths: the whole number
      of rupees nearest to 112% of the total. */
  function WithTaxes(total: int): (tenths: int)
    ensures tenths % 10 == 0
    ensures 200 * tenths - 1000 <= 224 * total < 200 * tenths + 1000
  {
    10 * RoundHalfUp(112 * total, 1000)
  }

  /** When the total is a whole number of rupees, as it is for every class's fare, the
      separately rounded total is the sum of the lines above it. */
  lemma SummaryAddsUp(fare: nat, adults: nat, children: nat, infants: nat)
    requires fare % 10 == 0
    ensures var s := PriceSummary(fare, adults, children, infants);
      s.total == s.baseFare + s.infantFare.GetOr(0) + s.taxes
  {
    var t := TotalPrice(fare, adults, children, infants);
    var rupees := t / 10;
    assert t == 10 * rupees by {
      var tenth := fare / 10;
      assert fare == 10 * tenth;
      assert t == 10 * (tenth * (10 * adults + 10 * children + infants));
    }
    var r := RoundHalfUp(12 * t, 1000);
    assert WithTaxes(t) == 10 * RoundHalfUp(112 * t, 1000);
    RoundHalfUpUnique(112 * t, 1000, rupees + r);
  }

  /** The details page and the checkout screen agree, for the same class and travellers
      and no extras, on the base price, the taxes and the total. */
  lemma DetailsAgreeWithCheckout(travelClass: string, adults: nat, children: nat, infants: nat)
    ensures var fare := Checkout.CheckoutFare(travelClass);
      var s := PriceSummary(fare, adults, children, infants);
      var p := Checkout.Pricing(fare, adults, children, infants, Checkout.NoAddOns);
      TotalPrice(fare, adults, children, infants) == p.basePrice && s.taxes == p.taxes && s.total == p.total
  {
    var fare := Checkout.CheckoutFare(travelClass);
    SummaryAddsUp(fare, adults, children, infants);
  }

  /** The decimal text of the generated numbers 1000 to 1099. */
  lemma GeneratedNumberText(i: nat)
    requires i < 100
    ensures NatToString(1000 + i) == "10" + [DigitChar(i / 10), DigitChar(i % 10)]
  {
    assert NatToString(1000 + i) == NatToString(100 + i / 10) + [DigitChar(i % 10)];
    assert NatToString(100 + i / 10) == NatToString(10) + [DigitChar(i / 10)];
    assert NatToString(10) == NatToString(1) + [DigitChar(0)];
  }

  /** The generated id of offer i, for i below 100, gives the flight number suffix 200 + i. */
  lemma GeneratedIdSuffix(i: nat)
    requires i < 100
    ensures FlightNumberSuffix(GeneratedId(i)) == NatToString(200 + i)
  {
    ParsedGeneratedId(i);
    SuffixOfGenerated(i);
  }

  /** An id made of `FL`, the decimal text of n and anything not starting with a digit
      gets the suffix 200 + n % 100. */
  lemma FlightNumberOf(n: nat, rest: string)
    requires rest == [] || !IsDigit(rest[0])
    ensures FlightNumberSuffix("FL" + NatToString(n) + rest) == NatToString(200 + n % 100)
  {
    var x := NatToString(n) + rest;
    assert "FL" + NatToString(n) + rest == "FL" + x;
    ParseNatToString(n, rest);
    RemainderOfNat(n);
    SuffixOfId("FL" + x, x, n, 200 + n % 100);
  }

  /** After `FL-` the number read is negative, and the truncating `% 100` makes the
      suffix 200 - n % 100. */
  lemma FlightNumberOfNegative(n: nat, rest: string)
    requires rest == [] || !IsDigit(rest[0])
    ensures FlightNumberSuffix("FL-" + NatToString(n) + rest) == NatToString(200 - n % 100)
  {
    var id := "FL-" + NatToString(n) + rest;
    var x := ['-'] + NatToString(n) + rest;
    var v := -(n as int);
    NegativeId(n, rest, id, x);
    ParseNegated(n, rest, x, v);
    RemainderOfNegative(n, v);
    SuffixOfId(id, x, v, 200 - n % 100);
  }

  /** An id "FL" + x whose remainder x `parseInt` reads as v gets the suffix k, the text of
      200 + v % 100. */
  lemma SuffixOfId(id: string, x: string, v: int, k: nat)
    requires id == "FL" + x
    requires ParseLeadingInt(x) == Some(v)
    requires k == 200 + TruncRem(v, 100)
    ensures FlightNumberSuffix(id) == NatToString(k)
  {
    StripPrefix(x);
  }

  lemma NegativeId(n: nat, rest: string, id: string, x: string)
    requires id == "FL-" + NatToString(n) + rest
    requires x == ['-'] + NatToString(n) + rest
    ensures id == "FL" + x
  {
  }

  lemma ParseNegated(n: nat, rest: string, x: string, v: int)
    requires rest == [] || !IsDigit(rest[0])
    requires x == ['-'] + NatToString(n) + rest
    requires v == -(n as int)
    ensures ParseLeadingInt(x) == Some(v)
  {
    var sign := '-';
    ParseSignedNatToString(sign, n, rest);
    assert [sign] + NatToString(n) + rest == x;
    assert (if sign == '-' then -(n as int) else n as int) == v;
  }

  lemma RemainderOfNat(n: nat)
    ensures TruncRem(n, 100) == n % 100
  {
  }

  lemma RemainderOfNegative(n: nat, v: int)
    requires v == -(n as int)
    ensures TruncRem(v, 100) == -(n % 100)
  {
  }

  /** Whatever number `parseInt` read, the suffix is the text of 200 plus its truncated
      remainder by 100, a number from 101 to 299. */
  lemma SuffixRange(n: int)
    ensures DigitsValue(SuffixFor(Some(n))) == 200 + TruncRem(n, 100)
    ensures 101 <= DigitsValue(SuffixFor(Some(n))) <= 299
  {
    NatToStringValue((200 + TruncRem(n, 100)) as nat);
  }

  lemma ParsedGeneratedId(i: nat)
    ensures ParseLeadingInt(ReplaceFirst(GeneratedId(i), "FL", "")) == Some(1000 + i)
  {
    StripPrefix(NatToString(1000 + i));
    ParseGeneratedNumber(1000 + i);
  }

  lemma SuffixOfGenerated(i: nat)
    requires i < 100
    ensures SuffixFor(Some(1000 + i)) == NatToString(200 + i)
  {
    GeneratedRemainder(i);
  }

  lemma ParseGeneratedNumber(n: nat)
    ensures ParseLeadingInt(NatToString(n)) == Some(n)
  {
    ParseNatToString(n, []);
    assert NatToString(n) + [] == NatToString(n);
  }

  lemma GeneratedRemainder(i: nat)
    requires i < 100
    ensures TruncRem(1000 + i, 100) == i
  {
  }

  lemma StripPrefix(x: string)
    ensures ReplaceFirst("FL" + x, "FL", "") == x
  {
    var id := "FL" + x;
    assert id[..2] == "FL" && id[2..] == x;
  }

  /** The table knows the first six generated ids, with the generator's airlines, and no
      other generated id below 100. */
  lemma TableCoversFirstSix(i: nat)
    requires i < 100
    ensures i < 6 ==> GeneratedId(i) in DetailsAirlines && DetailsAirlines[GeneratedId(i)] == Flights.Airlines[i]
    ensures i >= 6 ==> GeneratedId(i) !in DetailsAirlines
  {
    TableKeys();
    TableKeyMatches(i);
  }

  /** The keys of the table are "FL10" followed by "0" and a digit below 6. */
  lemma TableKeys()
    ensures "FL1000" == TableKey(0) && "FL1001" == TableKey(1) && "FL1002" == TableKey(2)
    ensures "FL1003" == TableKey(3) && "FL1004" == TableKey(4) && "FL1005" == TableKey(5)
  {
  }

  function TableKey(k: nat): string
    requires k < 10
  {
    "FL10" + [DigitChar(0), DigitChar(k)]
  }

  /** Generated id i below 100 equals the table key of k exactly when i is k. */
  lemma TableKeyMatches(i: nat)
    requires i < 100
    ensures forall k: nat | k < 6 :: TableKey(k) == GeneratedId(i) <==> i == k
  {
    GeneratedNumberText(i);
    var id := GeneratedId(i);
    assert id == "FL10" + [DigitChar(i / 10), DigitChar(i % 10)];
    forall k: nat | k < 6
      ensures TableKey(k) == id <==> i == k
    {
      if TableKey(k) == id {
        assert id[4] == DigitChar(i / 10) && id[5] == DigitChar(i % 10);
        assert DigitValue(DigitChar(i / 10)) == 0 && DigitValue(DigitChar(i % 10)) == k;
      }
    }
  }

  /** The airline resolved for the generated id of each of the twelve
      generated offers. */
  lemma ResolveGeneratedId(i: nat)
    requires i < Flights.FlightCount
    ensures i <= 6 ==> AirlineFor(GeneratedId(i)) == Flights.Airlines[i % 6]
    ensures i > 6 ==> AirlineFor(GeneratedId(i)).name == "IndiGo" != Flights.Airlines[i % 6].name
  {
    TableCoversFirstSix(i);
    SmallModSix(i);
    if i > 6 {
      assert Flights.Airlines[1].name != "IndiGo" && Flights.Airlines[2].name != "IndiGo";
      assert Flights.Airlines[3].name != "IndiGo" && Flights.Airlines[4].name != "IndiGo";
      assert Flights.Airlines[5].name != "IndiGo";
    }
  }

  lemma SmallModSix(i: nat)
    requires i < 12
    ensures i % 6 == if i < 6 then i else i - 6
  {
  }

  /** Opening the details of generated offer i shows the generator's airline and flight
      number for the first seven offers (the seventh falls back to IndiGo, which is also
      its generated airline), and IndiGo instead of the generated airline for the last
      five. */
  lemma DetailsOfGeneratedOffer(i: nat, travelClass: string, from: string, to: string, d: Flights.Draws,
                                origin: Option<string>, destination: Option<string>)
    requires i < Flights.FlightCount
    ensures var f := Flights.MockFlight(i, travelClass, from, to, d);
      var r := GetFlightDetails(Some(f.id), origin, destination, travelClass);
      && r.Some?
      && (i <= 6 ==> r.value.airline == f.airline && r.value.flightNumber == f.flightNumber)
      && (i > 6 ==> r.value.airline == "IndiGo" != f.airline)
  {
    var f := Flights.MockFlight(i, travelClass, from, to, d);
    Flights.MockFlightFacts(i, travelClass, from, to, d);
    assert f.id == GeneratedId(i);
    ResolveGeneratedId(i);
    GeneratedIdSuffix(i);
  }
}
