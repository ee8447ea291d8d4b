/** The search form: passenger counters, the origin/destination swap, the multi-city
    segment list, form validity per trip type, the query parameters a valid search
    sends to the results screen, and the hero-image carousel index. */
module FlightSearch {
  import opened Wrappers
  import opened Text

  datatype TripType = OneWay | RoundTrip | MultiCity

  /** The value the form stores for each trip type, and sends as `tripType`. */
  function TripTypeName(t: TripType): string {
    match t
    case OneWay => "one-way"
    case RoundTrip => "round-trip"
    case MultiCity => "multi-city"
  }

  /** One leg of a multi-city trip. */
  datatype Segment = Segment(from: string, to: string, date: string)

  const EmptySegment := Segment("", "", "")

  /** The field names `updateFlightSegment` is called with. */
  datatype SegmentField = From | To | Date

  function WithField(s: Segment, field: SegmentField, value: string): Segment {
    match field
    case From => s.(from := value)
    case To => s.(to := value)
    case Date => s.(date := value)
  }

  predicate SegmentComplete(s: Segment) {
    s.from != "" && s.to != "" && s.date != ""
  }

  /** `Array.prototype.every` of SegmentComplete. */
  predicate EverySegmentComplete(segments: seq<Segment>)
    decreases |segments|
  {
    segments == [] || (SegmentComplete(segments[0]) && EverySegmentComplete(segments[1..]))
  }

  /** `segments.filter((_, i) => i !== index)`: drops the element at index, if there is one. */
  function WithoutIndex(segments: seq<Segment>, index: int): (r: seq<Segment>)
    ensures r == if 0 <= index < |segments| then segments[..index] + segments[index + 1..] else segments
    decreases |segments|
  {
    if segments == [] then []
    else (if index == 0 then [] else [segments[0]]) + WithoutIndex(segments[1..], index - 1)
  }

  /** The number of hero images in the carousel. */
  const HeroImageCount: nat := 3

  /** `(prev + 1) % heroImages.length`: the next slide, wrapping to the first. */
  function NextSlide(current: nat, count: nat): (next: nat)
    requires count > 0
    ensures next < count
    ensures current < count ==> next == if current == count - 1 then 0 else current + 1
  {
    (current + 1) % count
  }

  /** `(prev - 1 + heroImages.length) % heroImages.length`: the previous slide, wrapping to the last. */
  function PrevSlide(current: nat, count: nat): (prev: nat)
    requires count > 0
    ensures prev < count
    ensures current < count ==> prev == if current == 0 then count - 1 else current - 1
  {
    (current - 1 + count) % count
  }

  /** Going forward then back, or back then forward, returns to the same slide. */
  lemma SlidesAreInverse(current: nat, count: nat)
    requires count > 0 && current < count
    ensures PrevSlide(NextSlide(current, count), count) == current
    ensures NextSlide(PrevSlide(current, count), count) == current
  {
  }

  /** Query keys of multi-city segment i: `from{i}`, `to{i}`, `date{i}`. */
  function FromKey(i: nat): string { "from" + NatToString(i) }
  function ToKey(i: nat): string { "to" + NatToString(i) }
  function DateKey(i: nat): string { "date" + NatToString(i) }

  /** The keys of the first n segments. */
  function SegmentKeys(n: nat): set<string> {
    if n == 0 then {} else SegmentKeys(n - 1) + {FromKey(n - 1), ToKey(n - 1), DateKey(n - 1)}
  }

  /** The keys every search sends. */
  const BaseKeys: set<string> := {"tripType", "travelClass", "adults", "children", "infants"}

  /** Segment keys of different segments or different fields never collide, and none of
      them is a base key or one of the single-trip keys. */
  lemma SegmentKeysDistinct(i: nat, j: nat)
    ensures i != j ==> FromKey(i) != FromKey(j) && ToKey(i) != ToKey(j) && DateKey(i) != DateKey(j)
    ensures FromKey(i) != ToKey(j) && FromKey(i) != DateKey(j) && ToKey(i) != DateKey(j)
    ensures FromKey(i) !in BaseKeys && ToKey(i) !in BaseKeys && DateKey(i) !in BaseKeys
    ensures FromKey(i) !in {"from", "to", "departureDate", "returnDate"}
    ensures ToKey(i) !in {"from", "to", "departureDate", "returnDate"}
    ensures DateKey(i) !in {"from", "to", "departureDate", "returnDate"}
  {
    if FromKey(i) == FromKey(j) {
      assert FromKey(i)[4..] == NatToString(i) && FromKey(j)[4..] == NatToString(j);
      NatToStringInjective(i, j);
    }
    if ToKey(i) == ToKey(j) {
      assert ToKey(i)[2..] == NatToString(i) && ToKey(j)[2..] == NatToString(j);
      NatToStringInjective(i, j);
    }
    if DateKey(i) == DateKey(j) {
      assert DateKey(i)[4..] == NatToString(i) && DateKey(j)[4..] == NatToString(j);
      NatToStringInjective(i, j);
    }
    assert FromKey(i)[0] == 'f' && ToKey(j)[0] == 't' && DateKey(j)[0] == 'd';
    assert ToKey(i)[0] == 't' && DateKey(i)[0] == 'd' && DateKey(i)[1] == 'a';
    assert ToKey(i)[1] == 'o' && |ToKey(i)| > 2 && |FromKey(i)| > 4;
  }

  /** Every key of the first n segments is the from, to or date key of one of them. */
  lemma {:induction false} InSegmentKeys(n: nat, k: string)
    requires k in SegmentKeys(n)
    ensures exists i :: 0 <= i < n && k in {FromKey(i), ToKey(i), DateKey(i)}
  {
    if k !in {FromKey(n - 1), ToKey(n - 1), DateKey(n - 1)} {
      InSegmentKeys(n - 1, k);
    }
  }

  /** The parameters after the first i segments have been added to base. */
  ghost predicate HoldsSegments(q: map<string, string>, base: map<string, string>, segments: seq<Segment>, i: nat)
    requires i <= |segments|
  {
    && q.Keys == BaseKeys + SegmentKeys(i)
    && (forall k | k in BaseKeys :: k in base && q[k] == base[k])
    && forall j | 0 <= j < i ::
         FromKey(j) in q && ToKey(j) in q && DateKey(j) in q &&
         q[FromKey(j)] == segments[j].from && q[ToKey(j)] == segments[j].to && q[DateKey(j)] == segments[j].date
  }

  /** Adding the keys of segment i extends the parameters of the first i segments to i + 1. */
  lemma PutSegmentStep(q: map<string, string>, base: map<string, string>, segments: seq<Segment>, i: nat)
    requires i < |segments| && HoldsSegments(q, base, segments, i)
    ensures HoldsSegments(q[FromKey(i) := segments[i].from][ToKey(i) := segments[i].to][DateKey(i) := segments[i].date],
                          base, segments, i + 1)
  {
    NewKeysAreFresh(i);
    var q' := q[FromKey(i) := segments[i].from][ToKey(i) := segments[i].to][DateKey(i) := segments[i].date];
    var added := {FromKey(i), ToKey(i), DateKey(i)};
    assert q'.Keys == q.Keys + added;
    assert SegmentKeys(i + 1) == SegmentKeys(i) + added;
    forall j | 0 <= j < i
      ensures FromKey(j) in q && ToKey(j) in q && DateKey(j) in q
      ensures q'[FromKey(j)] == q[FromKey(j)] && q'[ToKey(j)] == q[ToKey(j)] && q'[DateKey(j)] == q[DateKey(j)]
    {
      SegmentKeysContain(i, j);
    }
  }

  /** q sends `from{i}`, `to{i}` and `date{i}` with the fields of every segment i. */
  predicate SendsSegments(q: map<string, string>, segments: seq<Segment>) {
    forall i | 0 <= i < |segments| ::
      FromKey(i) in q && ToKey(i) in q && DateKey(i) in q &&
      q[FromKey(i)] == segments[i].from && q[ToKey(i)] == segments[i].to && q[DateKey(i)] == segments[i].date
  }

  /** The `forEach` of `handleSearch` over the multi-city segments: adds `from{i}`,
      `to{i}` and `date{i}` for every segment i to the parameters, keeping the base ones. */
  method PutSegments(base: map<string, string>, segments: seq<Segment>) returns (q: map<string, string>)
    requires base.Keys == BaseKeys
    ensures q.Keys == BaseKeys + SegmentKeys(|segments|)
    ensures forall k | k in BaseKeys :: q[k] == base[k]
    ensures SendsSegments(q, segments)
  {
    q := base;
    var i := 0;
    while i < |segments|
      invariant 0 <= i <= |segments|
      invariant HoldsSegments(q, base, segments, i)
    {
      PutSegmentStep(q, base, segments, i);
      q := q[FromKey(i) := segments[i].from][ToKey(i) := segments[i].to][DateKey(i) := segments[i].date];
      i := i + 1;
    }
  }

  /** The keys of segment i are none of the base keys nor the keys of any earlier segment. */
  lemma NewKeysAreFresh(i: nat)
    ensures FromKey(i) !in BaseKeys + SegmentKeys(i)
    ensures ToKey(i) !in BaseKeys + SegmentKeys(i)
    ensures DateKey(i) !in BaseKeys + SegmentKeys(i)
    ensures FromKey(i) != ToKey(i) && FromKey(i) != DateKey(i) && ToKey(i) != DateKey(i)
  {
    SegmentKeysDistinct(i, i);
    forall k | k in SegmentKeys(i)
      ensures k != FromKey(i) && k != ToKey(i) && k != DateKey(i)
    {
      InSegmentKeys(i, k);
      var j :| 0 <= j < i && k in {FromKey(j), ToKey(j), DateKey(j)};
      SegmentKeysDistinct(i, j);
      SegmentKeysDistinct(j, i);
    }
  }

  /** No segment key is `returnDate`. */
  lemma NoReturnDateKey(n: nat)
    ensures "returnDate" !in SegmentKeys(n)
  {
    if "returnDate" in SegmentKeys(n) {
      InSegmentKeys(n, "returnDate");
      var j :| 0 <= j < n && "returnDate" in {FromKey(j), ToKey(j), DateKey(j)};
      SegmentKeysDistinct(j, j);
    }
  }

  /** The keys of the first n segments include those of every segment i < n. */
  lemma {:induction false} SegmentKeysContain(n: nat, i: nat)
    requires i < n
    ensures FromKey(i) in SegmentKeys(n) && ToKey(i) in SegmentKeys(n) && DateKey(i) in SegmentKeys(n)
  {
    if i < n - 1 {
      SegmentKeysContain(n - 1, i);
    }
  }

  /** The state of the search form. */
  class SearchForm {
    var tripType: TripType
    var travelClass: string
    var adults: nat
    var children: nat
    var infants: nat
    var segments: seq<Segment>
    var fromCity: string
    var toCity: string
    var departureDate: string
    var returnDate: string
    var currentSlide: nat

    /** At least one adult, no more infants than adults, two or three segments, and a
        slide index within the carousel. */
    ghost predicate Valid()
      reads this
    {
      adults >= 1 && infants <= adults && 2 <= |segments| <= 3 && currentSlide < HeroImageCount
    }

    /** The form as the page first shows it. */
    constructor ()
      ensures Valid()
      ensures tripType == RoundTrip && travelClass == "economy"
      ensures adults == 1 && children == 0 && infants == 0
      ensures segments == [EmptySegment, EmptySegment]
      ensures fromCity == "" && toCity == "" && departureDate == "" && returnDate == ""
      ensures currentSlide == 0
    {
      tripType := RoundTrip;
      travelClass := "economy";
      adults, children, infants := 1, 0, 0;
      segments := [EmptySegment, EmptySegment];
      fromCity, toCity, departureDate, returnDate := "", "", "", "";
      currentSlide := 0;
    }

    /** `isFormValid()`: every segment complete for a multi-city trip; otherwise origin,
        destination and departure date, plus the return date unless the trip is one-way. */
    predicate IsFormValid()
      reads this
      ensures tripType == MultiCity ==>
        (IsFormValid() <==> forall i | 0 <= i < |segments| :: SegmentComplete(segments[i]))
      ensures tripType == OneWay ==>
        (IsFormValid() <==> fromCity != "" && toCity != "" && departureDate != "")
      ensures tripType == RoundTrip ==>
        (IsFormValid() <==> fromCity != "" && toCity != "" && departureDate != "" && returnDate != "")
    {
      EveryMeansAll(segments);
      if tripType == MultiCity then EverySegmentComplete(segments)
      else
        var basic := fromCity != "" && toCity != "" && departureDate != "";
        if tripType == OneWay then basic else basic && returnDate != ""
    }

    /** The parameters every search sends: trip type, cabin class and the three
        passenger counts as decimal text. */
    function BaseQuery(): (base: map<string, string>)
      reads this
      ensures base.Keys == BaseKeys
      ensures base["tripType"] == TripTypeName(tripType) && base["travelClass"] == travelClass
      ensures base["adults"] == NatToString(adults) && base["children"] == NatToString(children)
      ensures base["infants"] == NatToString(infants)
    {
      map["tripType" := TripTypeName(tripType), "travelClass" := travelClass,
          "adults" := NatToString(adults), "children" := NatToString(children),
          "infants" := NatToString(infants)]
    }

    /** `handleSearch`: the query parameters of the results page, or None (no navigation)
        when the form is incomplete. A multi-city search sends `from{i}`, `to{i}`, `date{i}`
        per segment; the others send from, to and departureDate, and a round trip also
        returnDate. */
    method Search() returns (query: Option<map<string, string>>)
      requires Valid()
      ensures query.Some? <==> IsFormValid()
      ensures query.Some? ==>
        var q := query.value;
        && BaseKeys <= q.Keys
        && (forall k | k in BaseKeys :: q[k] == BaseQuery()[k])
        && ("returnDate" in q <==> tripType == RoundTrip)
        && (tripType == MultiCity ==>
              && q.Keys == BaseKeys + SegmentKeys(|segments|)
              && SendsSegments(q, segments))
        && (tripType != MultiCity ==>
              && q.Keys == BaseKeys + {"from", "to", "departureDate"}
                           + (if tripType == RoundTrip then {"returnDate"} else {})
              && q["from"] == fromCity && q["to"] == toCity && q["departureDate"] == departureDate
              && (tripType == RoundTrip ==> q["returnDate"] == returnDate))
    {
      if !IsFormValid() {
        return None;
      }
      var base := BaseQuery();
      var q;
      if tripType == MultiCity {
        q := PutSegments(base, segments);
        NoReturnDateKey(|segments|);
      } else {
        q := PutRoute(base);
      }
      return Some(q);
    }

    /** The route parameters of a one-way or round-trip search added to base. */
    method PutRoute(base: map<string, string>) returns (q: map<string, string>)
      requires base.Keys == BaseKeys
      ensures q.Keys == BaseKeys + {"from", "to", "departureDate"}
                        + (if tripType == RoundTrip then {"returnDate"} else {})
      ensures forall k | k in BaseKeys :: q[k] == base[k]
      ensures q["from"] == fromCity && q["to"] == toCity && q["departureDate"] == departureDate
      ensures tripType == RoundTrip ==> q["returnDate"] == returnDate
    {
      q := base["from" := fromCity]["to" := toCity]["departureDate" := departureDate];
      if tripType == RoundTrip {
        q := q["returnDate" := returnDate];
      }
    }

    /** `handleAdultsChange`: adults never drop below one, and infants are clamped down
        to the new number of adults. */
    method ChangeAdults(increment: int)
      requires Valid()
      modifies this
      ensures Valid()
      ensures adults == if old(adults) + increment < 1 then 1 else old(adults) + increment
      ensures infants == if old(infants) > adults then adults else old(infants)
      ensures children == old(children) && segments == old(segments)
      ensures tripType == old(tripType) && travelClass == old(travelClass)
      ensures fromCity == old(fromCity) && toCity == old(toCity)
      ensures departureDate == old(departureDate) && returnDate == old(returnDate)
      ensures currentSlide == old(currentSlide)
    {
      var newAdults := if 1 > adults + increment then 1 else adults + increment;
      adults := newAdults;
      if infants > newAdults {
        infants := newAdults;
      }
    }

    /** `handleChildrenChange`: children never drop below zero. */
    method ChangeChildren(increment: int)
      requires Valid()
      modifies this
      ensures Valid()
      ensures children == if old(children) + increment < 0 then 0 else old(children) + increment
      ensures adults == old(adults) && infants == old(infants) && segments == old(segments)
      ensures tripType == old(tripType) && travelClass == old(travelClass)
      ensures fromCity == old(fromCity) && toCity == old(toCity)
      ensures departureDate == old(departureDate) && returnDate == old(returnDate)
      ensures currentSlide == old(currentSlide)
    {
      children := if 0 > children + increment then 0 else children + increment;
    }

    /** `handleInfantsChange`: infants never drop below zero, and a change that would
        leave more infants than adults is ignored. */
    method ChangeInfants(increment: int)
      requires Valid()
      modifies this
      ensures Valid()
      ensures var wanted := if old(infants) + increment < 0 then 0 else old(infants) + increment;
        infants == if wanted <= adults then wanted else old(infants)
      ensures adults == old(adults) && children == old(children) && segments == old(segments)
      ensures tripType == old(tripType) && travelClass == old(travelClass)
      ensures fromCity == old(fromCity) && toCity == old(toCity)
      ensures departureDate == old(departureDate) && returnDate == old(returnDate)
      ensures currentSlide == old(currentSlide)
    {
      var newInfants := if 0 > infants + increment then 0 else infants + increment;
      if newInfants <= adults {
        infants := newInfants;
      }
    }

    /** `swapCities`: origin and destination trade places; nothing else changes. */
    method SwapCities()
      requires Valid()
      modifies this
      ensures Valid()
      ensures fromCity == old(toCity) && toCity == old(fromCity)
      ensures adults == old(adults) && children == old(children) && infants == old(infants)
      ensures segments == old(segments) && tripType == old(tripType) && travelClass == old(travelClass)
      ensures departureDate == old(departureDate) && returnDate == old(returnDate)
      ensures currentSlide == old(currentSlide)
    {
      fromCity, toCity := toCity, fromCity;
    }

    /** `addFlightSegment`: one empty segment is appended while there are fewer than three. */
    method AddSegment()
      requires Valid()
      modifies this
      ensures Valid()
      ensures segments == if |old(segments)| < 3 then old(segments) + [EmptySegment] else old(segments)
      ensures adults == old(adults) && children == old(children) && infants == old(infants)
      ensures tripType == old(tripType) && travelClass == old(travelClass)
      ensures fromCity == old(fromCity) && toCity == old(toCity)
      ensures departureDate == old(departureDate) && returnDate == old(returnDate)
      ensures currentSlide == old(currentSlide)
    {
      if |segments| < 3 {
        segments := segments + [EmptySegment];
      }
    }

    /** `removeFlightSegment(index)`: while there are more than two segments, the one at
        index (if any) is removed and the others keep their order. */
    method RemoveSegment(index: int)
      requires Valid()
      modifies this
      ensures Valid()
      ensures segments == if |old(segments)| > 2 && 0 <= index < |old(segments)|
                          then old(segments)[..index] + old(segments)[index + 1..]
                          else old(segments)
      ensures adults == old(adults) && children == old(children) && infants == old(infants)
      ensures tripType == old(tripType) && travelClass == old(travelClass)
      ensures fromCity == old(fromCity) && toCity == old(toCity)
      ensures departureDate == old(departureDate) && returnDate == old(returnDate)
      ensures currentSlide == old(currentSlide)
    {
      if |segments| > 2 {
        segments := WithoutIndex(segments, index);
      }
    }

    /** `updateFlightSegment(index, field, value)`: only that field of that segment changes. */
    method UpdateSegment(index: int, field: SegmentField, value: string)
      requires Valid()
      modifies this
      ensures Valid()
      ensures |segments| == |old(segments)|
      ensures forall i | 0 <= i < |segments| ::
        segments[i] == if i == index then WithField(old(segments)[i], field, value) else old(segments)[i]
      ensures adults == old(adults) && children == old(children) && infants == old(infants)
      ensures tripType == old(tripType) && travelClass == old(travelClass)
      ensures fromCity == old(fromCity) && toCity == old(toCity)
      ensures departureDate == old(departureDate) && returnDate == old(returnDate)
      ensures currentSlide == old(currentSlide)
    {
      var old_ := segments;
      segments := seq(|old_|, i requires 0 <= i < |old_| =>
                        if i == index then WithField(old_[i], field, value) else old_[i]);
    }

    /** `nextSlide`. */
    method ShowNextSlide()
      requires Valid()
      modifies this`currentSlide
      ensures Valid()
      ensures currentSlide == NextSlide(old(currentSlide), HeroImageCount)
    {
      currentSlide := NextSlide(currentSlide, HeroImageCount);
    }

    /** `prevSlide`. */
    method ShowPrevSlide()
      requires Valid()
      modifies this`currentSlide
      ensures Valid()
      ensures currentSlide == PrevSlide(old(currentSlide), HeroImageCount)
    {
      currentSlide := PrevSlide(currentSlide, HeroImageCount);
    }
  }

  /** `every` holds exactly when the predicate holds at every index. */
  lemma {:induction false} EveryMeansAll(segments: seq<Segment>)
    ensures EverySegmentComplete(segments) <==> forall i | 0 <= i < |segments| :: SegmentComplete(segments[i])
    decreases |segments|
  {
    if segments != [] {
      EveryMeansAll(segments[1..]);
      assert forall i | 1 <= i < |segments| :: segments[i] == segments[1..][i - 1];
    }
  }

  /** Swapping the cities twice leaves the whole form as it was. */
  method SwapTwice(form: SearchForm)
    requires form.Valid()
    modifies form
    ensures form.Valid()
    ensures form.fromCity == old(form.fromCity) && form.toCity == old(form.toCity)
    ensures form.adults == old(form.adults) && form.children == old(form.children) && form.infants == old(form.infants)
    ensures form.segments == old(form.segments) && form.tripType == old(form.tripType)
    ensures form.travelClass == old(form.travelClass)
    ensures form.departureDate == old(form.departureDate) && form.returnDate == old(form.returnDate)
    ensures form.currentSlide == old(form.currentSlide)
  {
    form.SwapCities();
    form.SwapCities();
  }
}
