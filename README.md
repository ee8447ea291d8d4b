# Flight booking screens — a Dafny model

This project models the behaviour behind the four booking screens of the hotelio flight
dashboard:

- **The search form.** It covers:
  - the passenger counters and their floors, and the rule that infants never outnumber adults;
  - the origin/destination swap;
  - the multi-city segment list, kept at two or three legs;
  - form validity per trip type;
  - the query parameters a valid search sends;
  - the hero-image carousel index.
- **The results screen.** It covers:
  - the generator of the twelve mock offers;
  - the "all or specific values" checkbox lists for stops and airlines;
  - the stop, airline and price filters, composed by "and";
  - the three sort orders;
  - the Reset button.
- **The checkout screen.** It covers:
  - the passenger list built from the traveller counts, and its editing;
  - the price breakdown: cabin fare, infant fare at a tenth, per-traveller extras, and 12% taxes rounded to whole rupees;
  - the three-step wizard guarded by step validation.
- **The flight-details page.** It covers:
  - the airline looked up from the offer id, falling back to IndiGo;
  - the flight number;
  - the fare and baggage tables per cabin class;
  - the fare summary.

Modules:

| module | contents |
|---|---|
| `Wrappers` | `Option` |
| `Text` | Number to decimal text, `padStart`, `parseInt`, `replace`, ASCII upper-case, character-code order |
| `Numeric` | `Math.round` of a fraction; JavaScript's truncating `%` |
| `Seqs` | `Array.prototype.filter` with its lemmas; a counting loop that appends one element per step |
| `FlightSearch` | The search form as a class `SearchForm` |
| `Flights` | The offer record, the airline table, the generator |
| `FlightSort` | The comparators and the stable sort |
| `FlightResults` | The filters, the checkbox toggle, the results screen as a class `ResultsPage` |
| `Checkout` | Pricing, and the wizard as a class `CheckoutForm` |
| `FlightDetails` | The details page |

Some choices hold throughout the model:

- Money is counted in whole tenths of a rupee. With that unit, the `0.1` infant factor and the `0.12`/`1.12` tax factors are exact.
- `Math.round` is modelled on the exact fraction. It rounds halves up, towards +infinity.
- The generator's `Math.random()` values are inputs. Each is a real number in [0, 1).
- Query parameters are a `map<string, string>`.

## Model

| member | source | states |
|---|---|---|
| Text.NatToStringDigits | components/FlightResults.jsx:59-63 | The decimal text of a number (`toString`) is a non-empty run of digits. |
| Text.NatToStringValue | components/FlightResults.jsx:59-63 | Reading the decimal text of n back digit by digit gives n. |
| Text.NatToStringInjective | components/FlightResults.jsx:59 | Different numbers have different decimal texts, so ids built from them differ. |
| Text.Pad2Digits | components/FlightResults.jsx:54 | `toString().padStart(2, '0')` of a number below 100 is exactly two digits and reads back as that number. |
| Text.LeadingDigits | src/app/flight/details/page.jsx:38 | The digits `parseInt` reads are the longest all-digit prefix of the text. |
| Text.ParseLeadingInt | src/app/flight/details/page.jsx:38 | `parseInt` is NaN (None) exactly when no digit follows the optional sign. A number read from text starting with a digit is non-negative. The values are stated by Text.ParseNatToString and Text.ParseSignedNatToString. |
| Text.LeadingDigitsOf | src/app/flight/details/page.jsx:38 | The leading digits of a digit run followed by a non-digit are that run. |
| Text.ParseNatToString | components/FlightResults.jsx:111 | `parseInt`/`parseFloat` of the decimal text of n followed by a non-digit gives n back. |
| Text.ParseDigits | src/app/flight/details/page.jsx:38 | `parseInt` of any non-empty digit run followed by a non-digit, leading zeros included, is the value of that run. |
| Text.ParseSignedNatToString | src/app/flight/details/page.jsx:38 | `parseInt` of a sign, the decimal text of n and then a non-digit gives n after "+" and -n after "-". |
| Text.ReplaceFirst | src/app/flight/details/page.jsx:38 | `replace('FL', '')` on text starting with the pattern replaces that prefix. Text shorter than the pattern is returned unchanged. |
| Text.OccursInTail | src/app/flight/details/page.jsx:38 | Dropping the first character moves every occurrence of the pattern one position to the left. |
| Text.ReplaceFirstAt | src/app/flight/details/page.jsx:38 | When the first occurrence of the pattern is at k, `replace` returns the text before k, then the replacement, then the text after that occurrence. |
| Text.ReplaceFirstAbsent | src/app/flight/details/page.jsx:38 | Text in which the pattern occurs nowhere is returned unchanged. |
| Text.ToUpperAscii | components/FlightResults.jsx:64-65 | `toUpperCase` keeps the length, maps each character, and leaves no lower-case ASCII letter. |
| Text.ToUpperIdempotent | components/FlightResults.jsx:64-65 | Upper-casing twice is upper-casing once. |
| Text.LexLeReflexive | components/FlightResults.jsx:113 | The departure-time order is reflexive. |
| Text.LexLeTotal | components/FlightResults.jsx:113 | The departure-time order relates any two texts one way or the other. |
| Text.LexLeTransitive | components/FlightResults.jsx:113 | The departure-time order is transitive. |
| Text.LexLeAntisymmetric | components/FlightResults.jsx:113 | Two texts each at most the other are equal. |
| Numeric.RoundHalfUp | src/app/flight/checkout/Checkout.jsx:88 | `Math.round(n / d)` is within half a unit of n / d: down inclusive, up exclusive. |
| Numeric.RoundHalfUpUnique | src/app/flight/checkout/Checkout.jsx:88 | The integer within that half-unit window is unique. |
| Numeric.RoundHalfUpExact | src/app/flight/checkout/Checkout.jsx:88 | Rounding an exact quotient gives that quotient. |
| Numeric.TruncRem | src/app/flight/details/page.jsx:45 | JavaScript's `%` satisfies a = m·q + r, with the remainder taking the dividend's sign and lying strictly within m of zero. |
| Seqs.Collect | components/FlightResults.jsx:45-74 | The counting loop that appends one computed element per index builds [f(0), …, f(k-1)]. |
| Seqs.TabulateAt | components/FlightResults.jsx:45-74 | Element i of that sequence is f(i). |
| Seqs.FilterMembers | components/FlightResults.jsx:96-105 | `filter` keeps exactly the elements that pass. |
| Seqs.FilterMultiset | components/FlightResults.jsx:91-105 | `filter` keeps each passing element as often as it occurs and drops the rest. Nothing is invented, duplicated or lost. |
| Seqs.FilterConcat | components/FlightResults.jsx:91-105 | Filtering distributes over concatenation. |
| Seqs.FilterKeepsAll | components/FlightResults.jsx:91-105 | When every element passes, filtering changes nothing. |
| Seqs.FilterSame | components/FlightResults.jsx:95-102 | Predicates that agree on the elements filter alike. |
| Seqs.FilterCompose | components/FlightResults.jsx:95-105 | Filtering by p and then by q is filtering by "p and q". |
| Seqs.FilterIdempotent | components/FlightResults.jsx:91-105 | Filtering twice by the same predicate is filtering once. |
| FlightSearch.WithoutIndex | components/FlightSearch.jsx:148-152 | `filter((_, i) => i !== index)` removes exactly the element at index and keeps the others in order. An index out of range removes nothing. |
| FlightSearch.NextSlide | components/FlightSearch.jsx:161-163 | The next slide is within the carousel, wrapping from the last slide to the first. |
| FlightSearch.PrevSlide | components/FlightSearch.jsx:165-167 | The previous slide is within the carousel, wrapping from the first slide to the last. |
| FlightSearch.SlidesAreInverse | components/FlightSearch.jsx:161-167 | Next then previous, and previous then next, return to the same slide. |
| FlightSearch.SegmentKeysDistinct | components/FlightSearch.jsx:92-96 | `from{i}`/`to{i}`/`date{i}` never collide across segments or fields. None of them is a base key or a single-trip key. |
| FlightSearch.InSegmentKeys | components/FlightSearch.jsx:92-96 | Every segment key belongs to some segment below the count. |
| FlightSearch.PutSegmentStep | components/FlightSearch.jsx:93-95 | One `forEach` step extends the parameters of the first i segments to i + 1 and keeps the base keys. |
| FlightSearch.PutSegments | components/FlightSearch.jsx:92-96 | The `forEach` loop adds exactly the three keys of every segment with its values, keeping the base parameters. |
| FlightSearch.NewKeysAreFresh | components/FlightSearch.jsx:92-96 | The keys of segment i are new: none is a base key or a key of an earlier segment. |
| FlightSearch.NoReturnDateKey | components/FlightSearch.jsx:91-106 | No segment key is `returnDate`. |
| FlightSearch.SegmentKeysContain | components/FlightSearch.jsx:92-96 | After n segments, the keys of every earlier segment are present. |
| FlightSearch.SearchForm.constructor | components/FlightSearch.jsx:10-29 | Initial state: round trip, economy, one adult, two empty segments, empty cities and dates, first slide. |
| FlightSearch.SearchForm.IsFormValid | components/FlightSearch.jsx:70-77 | Multi-city: valid iff every segment has from, to and date. One-way: valid iff from, to and departure date are set. Round trip: additionally the return date. |
| FlightSearch.SearchForm.BaseQuery | components/FlightSearch.jsx:82-88 | Every search sends trip type, class, and the three passenger counts as decimal text, and nothing else. |
| FlightSearch.SearchForm.Search | components/FlightSearch.jsx:79-113 | Parameters are produced iff the form is valid. A multi-city search sends the base keys plus `from{i}`/`to{i}`/`date{i}` of every segment. Other searches send the base keys plus from/to/departureDate. `returnDate` is sent iff the trip is a round trip. |
| FlightSearch.SearchForm.PutRoute | components/FlightSearch.jsx:97-106 | A one-way or round-trip search adds from, to and departureDate, plus returnDate for a round trip, keeping the base parameters. |
| FlightSearch.SearchForm.ChangeAdults | components/FlightSearch.jsx:115-122 | Adults become max(1, adults + increment). Infants are clamped to min(infants, adults). Everything else is unchanged, and infants ≤ adults is kept. |
| FlightSearch.SearchForm.ChangeChildren | components/FlightSearch.jsx:124-126 | Children become max(0, children + increment). Nothing else changes. |
| FlightSearch.SearchForm.ChangeInfants | components/FlightSearch.jsx:128-134 | Infants become max(0, infants + increment) when that is at most adults. Otherwise they are unchanged. Nothing else changes, and infants ≤ adults is kept. |
| FlightSearch.SearchForm.SwapCities | components/FlightSearch.jsx:136-140 | Origin and destination trade places. Nothing else changes. |
| FlightSearch.SearchForm.AddSegment | components/FlightSearch.jsx:142-146 | An empty segment is appended iff there are fewer than three, so the list keeps two or three legs. |
| FlightSearch.SearchForm.RemoveSegment | components/FlightSearch.jsx:148-152 | With more than two segments, exactly the one at index is removed and the others keep their order. Otherwise the list is unchanged, so it keeps two or three legs. |
| FlightSearch.SearchForm.UpdateSegment | components/FlightSearch.jsx:154-159 | Only the given field of the given segment takes the value. |
| FlightSearch.SearchForm.ShowNextSlide | components/FlightSearch.jsx:161-163 | The slide advances with wrap-around and stays within the carousel. |
| FlightSearch.SearchForm.ShowPrevSlide | components/FlightSearch.jsx:165-167 | The slide goes back with wrap-around and stays within the carousel. |
| FlightSearch.EveryMeansAll | components/FlightSearch.jsx:72 | `every` over the segments holds iff every segment is complete. |
| FlightSearch.SwapTwice | components/FlightSearch.jsx:136-140 | Swapping twice restores both cities and leaves every other field of the form as it was: swapping is its own inverse. |
| Flights.DurationText | components/FlightResults.jsx:68 | The duration text "{h}h {m}m". `parseFloat` reads it back as h (Flights.DurationParsesToHours). |
| Flights.ClockText | components/FlightResults.jsx:54-56 | The "HH:MM" clock text, each part padded to two digits. Text.Pad2Digits shows each part below 100 is exactly two digits and reads back as the number. |
| Flights.MockFlight | components/FlightResults.jsx:47-73 | Offer i as the loop body builds it from its random draws. Its properties are stated by Flights.MockFlightFacts and Flights.MockIdsDistinct. |
| Flights.DurationParsesToHours | components/FlightResults.jsx:111 | `parseFloat` of "{h}h {m}m" is the whole-hour count h. |
| Flights.BaseFare | components/FlightResults.jsx:41-43 | Base fare 3000/6000/12000 for economy/premium-economy/business, 25000 for any other class. |
| Flights.Pick | components/FlightResults.jsx:49-50 | `Math.floor(random * n)` is an integer in [0, n). |
| Flights.Duration | components/FlightResults.jsx:51 | With at most two stops, the duration is one to six whole hours plus fewer than 60 minutes. |
| Flights.Surcharge | components/FlightResults.jsx:52 | The random part of the fare is below 80% of the base fare. |
| Flights.MockFlightFacts | components/FlightResults.jsx:45-74 | Offer i has id `FL{1000+i}`, the airline at i mod 6 and flight number code + (200 + i). Its price is from base up to below 1.8·base. It has at most two stops, a duration of 1–6 h and under 60 min, 5–24 seats, a departure between 06:00 and 21:59, and the upper-cased route. |
| Flights.GenerateMockFlights | components/FlightResults.jsx:30-76 | The generator loop yields exactly twelve offers, offer i being MockFlight of index i and its own random draws. |
| Flights.MockIdsDistinct | components/FlightResults.jsx:59 | Generated ids are pairwise distinct. |
| FlightSort.KeyLe | components/FlightResults.jsx:108-114 | The comparator is at most 0: lower price, fewer whole hours, or a departure time no later in character-code order. It is a total preorder (FlightSort.KeyLeReflexive, FlightSort.KeyLeTotal, FlightSort.KeyLeTransitive). |
| FlightSort.SameKey | components/FlightResults.jsx:108-114 | The comparator returns 0: equal price, whole hours or departure time. This holds iff each offer may precede the other (FlightSort.SameKeyIsTie). |
| FlightSort.KeyLeReflexive | components/FlightResults.jsx:108-114 | Each comparator lets an offer precede itself. |
| FlightSort.KeyLeTotal | components/FlightResults.jsx:108-114 | Each comparator orders any two offers one way or the other. |
| FlightSort.KeyLeTransitive | components/FlightResults.jsx:108-114 | Each comparator is transitive. |
| FlightSort.SameKeyIsTie | components/FlightResults.jsx:108-114 | A comparator returns 0 iff each offer may precede the other. |
| FlightSort.InsertKeepsSorted | components/FlightResults.jsx:108-114 | Inserting into a sorted list keeps it sorted and adds exactly one copy of the offer. |
| FlightSort.LowerBound | components/FlightResults.jsx:108-114 | An offer that sorts before the head of a sorted list sorts before all of it. |
| FlightSort.ConsSorted | components/FlightResults.jsx:108-114 | An offer no later than every element can go in front of a sorted list. |
| FlightSort.BoundedByMultiset | components/FlightResults.jsx:108-114 | A lower bound of t and of x bounds every rearrangement of t and x. |
| FlightSort.Sort | components/FlightResults.jsx:108-114 | `result.sort(comparator)` returns a permutation of its input in non-decreasing key order. |
| FlightSort.NoTiesAfterLarger | components/FlightResults.jsx:108-114 | A sorted list whose head sorts after x holds nothing tied with x. |
| FlightSort.InsertKeepsTies | components/FlightResults.jsx:108-114 | Insertion keeps the tied offers in order and puts the new one after its ties. |
| FlightSort.InsertBehindTies | components/FlightResults.jsx:108-114 | Insertion keeps the ties when the offer goes behind the head. |
| FlightSort.InsertInFrontTies | components/FlightResults.jsx:108-114 | Insertion keeps the ties when the offer goes in front. |
| FlightSort.TiesOfCons | components/FlightResults.jsx:108-114 | The ties of y followed by t are y (if it ties), then the ties of t. |
| FlightSort.SortIsStable | components/FlightResults.jsx:108-114 | The sort is stable: for every offer, the offers tied with it come out in their input order. |
| FlightSort.InsertLargest | components/FlightResults.jsx:108-114 | Inserting an offer that everything may precede appends it. |
| FlightSort.SortOfSorted | components/FlightResults.jsx:108-114 | Sorting a sorted list leaves it unchanged. |
| FlightResults.StopsMatch | components/FlightResults.jsx:96 | An offer passes when the decimal text of its stop count is selected. |
| FlightResults.AirlineMatch | components/FlightResults.jsx:101 | An offer passes when its airline name is selected. |
| FlightResults.PriceMatch | components/FlightResults.jsx:105 | An offer passes when its price lies in the range, both ends included. |
| FlightResults.StopsFilter | components/FlightResults.jsx:95-97 | The stop filter in force: everything passes when "all" is selected. |
| FlightResults.StopsAndAirline | components/FlightResults.jsx:95-102 | The stop and airline filters together, each void when its list holds "all". |
| FlightResults.Qualifying | components/FlightResults.jsx:95-105 | The three filters composed by "and". FlightResults.FilterAndSort proves that the screen's three successive `filter` calls keep exactly these offers. |
| FlightResults.Shown | components/FlightResults.jsx:91-116 | The qualifying offers, sorted. FlightResults.FilterAndSort states its contents, order and stability. FlightResults.ShownIsIdempotent shows that showing it again changes nothing. |
| FlightResults.Without | components/FlightResults.jsx:218-219 | `filter(x => x !== v)`. Its members are stated by FlightResults.WithoutMembers. |
| FlightResults.ShownIsIdempotent | components/FlightResults.jsx:91-116 | Applying the same filters and sort to the shown list changes nothing. |
| FlightResults.FilterAndSort | components/FlightResults.jsx:91-116 | The result, sorted by the key, holds each offer passing the stop filter (unless "all"), the airline filter (unless "all") and the inclusive price range, as often as in the input, and no other. Tied offers stay in input order. |
| FlightResults.WithoutMembers | components/FlightResults.jsx:218-219 | `filter(x => x !== v)` keeps exactly the values other than v. |
| FlightResults.Toggle | components/FlightResults.jsx:213-221 | Picking "all" yields ["all"]. Checking a value gives exactly the previous values other than "all", plus the value appended last. Unchecking removes it and keeps exactly the others. An empty result reverts to ["all"]. |
| FlightResults.ClickKeepsWellFormed | components/FlightResults.jsx:211-221 | A click keeps a selection that is exactly ["all"] or a non-empty duplicate-free list without "all". |
| FlightResults.ResultsPage.IsReset | components/FlightResults.jsx:24-27 | The reset state (stops and airlines ["all"], price [0, 50000]) is well formed. |
| FlightResults.ResultsPage.constructor | components/FlightResults.jsx:24-27 | The screen starts with the twelve generated offers, cheapest first, no filter. |
| FlightResults.ResultsPage.ClickStops | components/FlightResults.jsx:211-221 | A stop checkbox click applies the toggle and keeps the selection well formed. |
| FlightResults.ResultsPage.ClickAirline | components/FlightResults.jsx:240-250 | An airline checkbox click applies the toggle and keeps the selection well formed. |
| FlightResults.ResultsPage.SetSortBy | components/FlightResults.jsx:24 | The sort selector sets the order. |
| FlightResults.ResultsPage.Reset | components/FlightResults.jsx:192-197 | Reset restores stops ["all"], airlines ["all"] and price [0, 50000], the initial filter state. |
| FlightResults.ResultsPage.FilteredAndSortedFlights | components/FlightResults.jsx:91-116 | The rendered list is sorted by the chosen key and holds exactly the stored offers that qualify. |
| Checkout.SetField | src/app/flight/checkout/Checkout.jsx:99 | `updated[index][field] = value` sets that field and keeps the other fields and the type. |
| Checkout.Repeat | src/app/flight/checkout/Checkout.jsx:33-41 | n pushes of the same entry give n copies. |
| Checkout.Roster | src/app/flight/checkout/Checkout.jsx:31-43 | The initial passenger list: blank adults, then children, then infants. Its shape and counts are stated by Checkout.RosterShape and Checkout.RosterCounts. |
| Checkout.RosterShape | src/app/flight/checkout/Checkout.jsx:31-43 | The initial list has one blank entry per traveller (empty names and birth date, gender "male"). Adults come first, then children, then infants. |
| Checkout.RosterCounts | src/app/flight/checkout/Checkout.jsx:31-43 | The initial list holds exactly `adults` adults, `children` children and `infants` infants. |
| Checkout.InitialPassengers | src/app/flight/checkout/Checkout.jsx:31-43 | The three push loops build that list. |
| Checkout.CheckoutFare | src/app/flight/checkout/Checkout.jsx:72-74 | Fare 3500/6500/12500 for economy/premium-economy/business, 25000 otherwise, always whole tens of rupees. |
| Checkout.BasePrice | src/app/flight/checkout/Checkout.jsx:79 | `basePrice` in tenths of a rupee: the full fare per adult and child and a tenth of it per infant. Checkout.BasePriceIsSumOfFares shows this is the sum over the passenger list. |
| Checkout.BasePriceIsSumOfFares | src/app/flight/checkout/Checkout.jsx:79 | `basePrice` equals the sum over the passenger list of the full fare, or a tenth of it per infant. |
| Checkout.UnitPrice | src/app/flight/checkout/Checkout.jsx:80-85 | Per traveller, a meal costs 500, extra baggage 1000, insurance 300 and seat selection 200. |
| Checkout.Charge | src/app/flight/checkout/Checkout.jsx:80-87 | An extra costs its unit price times the travellers when selected, nothing otherwise. |
| Checkout.SumSelected | src/app/flight/checkout/Checkout.jsx:86-87 | The `reduce` over the extras' entries. Checkout.SumOfEntries shows it is the sum of the four charges. |
| Checkout.SumOfEntries | src/app/flight/checkout/Checkout.jsx:86-87 | The `reduce` over the four entries is the sum of the four charges. |
| Checkout.AddOnsTotal | src/app/flight/checkout/Checkout.jsx:78-87 | `addOnsTotal` is 0 iff nothing is selected or nobody travels. It is at most 2000 per traveller. |
| Checkout.FlipChangesTotal | src/app/flight/checkout/Checkout.jsx:80-87 | Selecting an extra adds its unit price × travellers to the total; deselecting it takes that off. |
| Checkout.Flip | src/app/flight/checkout/Checkout.jsx:360 | The add-on click flips that key and leaves the other three. |
| Checkout.Taxes | src/app/flight/checkout/Checkout.jsx:88 | `Math.round(subtotal × 0.12)` is a whole number of rupees within half a rupee of 12% of the subtotal. |
| Checkout.Pricing | src/app/flight/checkout/Checkout.jsx:78-89 | Base price and extras are as defined, the total is the sum of the three lines, and the total is within half a rupee of 112% of base plus extras. |
| Checkout.PricingExample | src/app/flight/checkout/Checkout.jsx:79-89 | Fare 3500, two adults, one infant, no extras: 7350 + 882 = 8232 rupees. |
| Checkout.WholeRupees | src/app/flight/checkout/Checkout.jsx:72-89 | With the checkout's fares, base and total are whole rupees, and 12% of base plus extras is never exactly halfway, so the rounding direction never matters. |
| Checkout.NoHalfWay | src/app/flight/checkout/Checkout.jsx:88 | 12% of a whole number of rupees never ends in exactly half a rupee. |
| Checkout.CheckoutForm.constructor | src/app/flight/checkout/Checkout.jsx:25-61 | Initial state: blank contact (code "+91"), the initial list, no extras, card payment, terms unchecked, step 1. |
| Checkout.CheckoutForm.CurrentPrice | src/app/flight/checkout/Checkout.jsx:78-89 | The breakdown for the form's class, counts and extras. Its properties are stated by Checkout.Pricing. |
| Checkout.CheckoutForm.ValidateStep | src/app/flight/checkout/Checkout.jsx:103-119 | Step 1 needs email, phone and every passenger field. Step 2 always passes. Step 3 needs the terms and, for a card, all four card fields. Any other step fails. |
| Checkout.CheckoutForm.HandleNext | src/app/flight/checkout/Checkout.jsx:121-131 | A valid step below 3 advances by exactly one. The valid step 3 submits the current breakdown. An invalid step stays unchanged. The step stays in 1..3. |
| Checkout.CheckoutForm.GoBack | src/app/flight/checkout/Checkout.jsx:538-540 | "Previous", offered above step 1, goes back exactly one step. |
| Checkout.CheckoutForm.UpdatePassenger | src/app/flight/checkout/Checkout.jsx:97-101 | Only the given field of the given passenger changes. The length and every other entry stay. |
| Checkout.CheckoutForm.ToggleAddOn | src/app/flight/checkout/Checkout.jsx:360 | The card click flips exactly that extra. |
| Checkout.CheckoutForm.SetContact | src/app/flight/checkout/Checkout.jsx:236-258 | The contact fields take the entered values. |
| Checkout.CheckoutForm.ChoosePaymentMethod | src/app/flight/checkout/Checkout.jsx:410 | The payment method takes the clicked value. |
| Checkout.CheckoutForm.SetCard | src/app/flight/checkout/Checkout.jsx:437-476 | The card fields take the entered values. |
| Checkout.CheckoutForm.SetAgreeTerms | src/app/flight/checkout/Checkout.jsx:525 | The terms flag follows the checkbox. |
| Checkout.EveryCompleteMeansAll | src/app/flight/checkout/Checkout.jsx:105-107 | `passengers.every(...)` holds iff every passenger has all four fields filled. |
| FlightDetails.AirlineFor | src/app/flight/details/page.jsx:28-37 | A known id gets its table entry. Any other id gets the FL1000 identity (IndiGo). |
| FlightDetails.SuffixFor | src/app/flight/details/page.jsx:45 | `200 + (n % 100)` is all digits, and "NaN" exactly when no number was read. Its value is stated by FlightDetails.SuffixRange. |
| FlightDetails.SuffixRange | src/app/flight/details/page.jsx:45 | For any number read, the suffix reads back as 200 plus its truncated remainder by 100, a value from 101 to 299. |
| FlightDetails.FlightNumberSuffix | src/app/flight/details/page.jsx:38-45 | The suffix is "NaN" exactly when `parseInt` of the id without "FL" finds no number. |
| FlightDetails.FlightNumberOf | src/app/flight/details/page.jsx:38-45 | An id "FL" + the decimal text of n + text not starting with a digit gets the suffix 200 + n % 100. |
| FlightDetails.FlightNumberOfNegative | src/app/flight/details/page.jsx:38-45 | An id "FL-" + the decimal text of n + text not starting with a digit gets the suffix 200 - n % 100, by the truncating `%`. |
| FlightDetails.CheckinKg | src/app/flight/details/page.jsx:59-60 | Check-in baggage is 15 kg for economy, 20 kg for premium-economy, 30 kg otherwise. |
| FlightDetails.CityCode | src/app/flight/details/page.jsx:46-47 | The route is the upper-cased parameter, or DEL/BOM when it is absent or empty. |
| FlightDetails.GetFlightDetails | src/app/flight/details/page.jsx:27-67 | No id means no page. Otherwise the table airline with flight number code + suffix, the route with defaults, the class fare from the checkout table, check-in baggage by class, 7 kg cabin baggage, non-stop and 12 seats. |
| FlightDetails.TotalPrice | src/app/flight/details/page.jsx:71 | `totalPrice`, computed exactly, equals the checkout's `basePrice` for the same fare and counts. |
| FlightDetails.PriceSummary | src/app/flight/details/page.jsx:393-409 | Base fare line = fare·(adults+children). The infant line is shown iff there are infants, and the two lines sum to `totalPrice`. Taxes = round(0.12·totalPrice). Total = round(1.12·totalPrice), a whole number of rupees within half a rupee. |
| FlightDetails.WithTaxes | src/app/flight/details/page.jsx:409 | `Math.round(totalPrice × 1.12)` is a whole number of rupees within half a rupee of 112% of the total. |
| FlightDetails.SummaryAddsUp | src/app/flight/details/page.jsx:393-409 | For a fare in whole tens of rupees, the separately rounded total equals base line + infant line + taxes. |
| FlightDetails.DetailsAgreeWithCheckout | src/app/flight/details/page.jsx:403-409 | For the same class and travellers and no extras, the details page and checkout agree on base price, taxes and total. |
| FlightDetails.GeneratedNumberText | components/FlightResults.jsx:59 | The decimal text of 1000 + i, for i below 100, is "10" followed by the two digits of i. |
| FlightDetails.GeneratedIdSuffix | src/app/flight/details/page.jsx:38-45 | The id of generated offer i (i below 100) gives the flight-number suffix 200 + i, as the generator's own flight number does. |
| FlightDetails.ParsedGeneratedId | src/app/flight/details/page.jsx:38 | `parseInt(id.replace('FL', ''))` of a generated id is 1000 + i. |
| FlightDetails.SuffixOfGenerated | src/app/flight/details/page.jsx:45 | 200 + ((1000 + i) % 100) is 200 + i for i below 100. |
| FlightDetails.ParseGeneratedNumber | src/app/flight/details/page.jsx:38 | `parseInt` of the decimal text of n is n. |
| FlightDetails.StripPrefix | src/app/flight/details/page.jsx:38 | `replace('FL', '')` on "FL" + x is x. |
| FlightDetails.TableCoversFirstSix | src/app/flight/details/page.jsx:28-35 | The table knows the ids of generated offers 0–5, with the generator's airlines, and no other generated id below 100. |
| FlightDetails.TableKeyMatches | src/app/flight/details/page.jsx:28-35 | A generated id below 100 equals the table key FL100k exactly when its index is k. |
| FlightDetails.ResolveGeneratedId | src/app/flight/details/page.jsx:37 | Generated offers 0–6 resolve to their generated airline (offer 6 through the IndiGo fallback). Offers 7–11 resolve to IndiGo, not their generated airline. |
| FlightDetails.DetailsOfGeneratedOffer | src/app/flight/details/page.jsx:27-67 | Opening generated offer i shows the generator's airline and flight number for offers 0–6. Offers 7–11 show IndiGo instead of the generated airline. |

## Left out

- Rendering, styling, animations and icons. None of them computes anything the screens keep.
- Navigation and URL handling are not modelled: `router.push`, `router.back`, `useSearchParams`, and the `URLSearchParams` encoding. The search produces its parameters as a map. The payment page receives the price breakdown as a value.
- Timers and listeners are not modelled: the carousel's automatic `setInterval`, the outside-click listener of the passenger drop-down, and `alert`. A rejected step or search is the `Rejected` or `None` outcome instead of an alert.
- `Math.random()` is not modelled. Its values are parameters of the generator.
- Floating point is not modelled. Amounts are exact tenths of a rupee, and durations are real numbers cut to whole hours and minutes. For the fares in the tables, every amount the screens show agrees with this: the base and infant lines, and the rounded taxes and totals. For a fractional fare, binary rounding of `0.1` or `0.12` could differ.
- FlightDetails.TotalPrice: the exact value, not the double the page computes. In binary arithmetic `infants * 0.1` can leave an error in the last bit: 3500 × (1 + 0.1) is 3850.0000000000005. The page never shows this amount unrounded. 12% of a whole number of rupees is never exactly a half (Checkout.NoHalfWay). Being a whole number of hundredths, it is at least a hundredth away from one, so such an error cannot change the rounded taxes or total at src/app/flight/details/page.jsx:403 and :409.
- `toLocaleString` and `toLocaleDateString` formatting are not modelled.
- Flights.DurationText: the duration text takes the hours and minutes as computed. JavaScript's `duration % 1` on a binary double is not modelled bit for bit.
- FlightSort.KeyLe: `localeCompare` on departure times is modelled as character-code order. For "HH:MM" texts of digits and a colon, locale collation gives the same order.
- Text.ParseLeadingInt: `parseInt` is modelled on text that starts with an optional sign and decimal digits. Leading whitespace, a "0x" prefix, and precision loss above 2^53 are not modelled. The ids the program builds never contain them.
- Text.ToUpperAscii: `toUpperCase` upper-cases ASCII letters only. Unicode case mapping is not modelled.
- FlightDetails.AirlineFor: an id equal to an inherited property name of a JavaScript object (e.g. "constructor") is not modelled. The object lookup would find a prototype member there.
- The details page's amenities, terminals, duration text, and cancellation and reschedule texts are not modelled. They are constants with nothing to prove. `Details` keeps the fixed times, stops, seats and aircraft.
- The checkout's passenger entries are values. `updatePassenger` copies the array and then writes into the shared entry object. That aliasing is invisible once the new list replaces the old one, and is not modelled.
- Counts read from the query (`parseInt(... || '1')`) are taken as natural numbers. A NaN or negative count from a hand-edited URL is not modelled.
- The generator's `for` loop is the generic counting loop `Seqs.Collect` applied to the offer function. Its loop invariant is stated there once.
- The booking confirmation page, the popular-flights list, the image-host configuration and the `page.jsx` wrappers that only add a Suspense boundary are not part of this model.
- `removeFlightSegment` in components/FlightSearch.jsx:148-152 removes any index once there are three segments. Only the rendering (line 371) hides the remove button of the first two legs. The model follows the handler: `SearchForm.RemoveSegment` accepts any index.
- The details page resolves the airline from its own six-entry table (src/app/flight/details/page.jsx:28-36), while the generator cycles six airlines over twelve offers. So offers FL1007–FL1011 open with IndiGo instead of their generated airline. `FlightDetails.ResolveGeneratedId` and `FlightDetails.DetailsOfGeneratedOffer` state this as the code behaves.
