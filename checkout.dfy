/** The checkout screen: the passenger list built from the counts, the price breakdown
    (fare, add-ons, 12% taxes), the three-step wizard and its validation. Money is
    counted in tenths of a rupee, so the infant fare (a tenth of the fare) and the tax
    rate are exact. */
module Checkout {
  import opened Numeric

  datatype PassengerType = Adult | Child | Infant

  /** One traveller's form entry. */
  datatype Passenger = Passenger(kind: PassengerType, firstName: string, lastName: string,
                                 dob: string, gender: string)

  /** The fields of a passenger the form edits. */
  datatype PassengerField = FirstName | LastName | Dob | Gender

  /** A fresh entry: empty names and date of birth, gender "male". */
  function Blank(kind: PassengerType): Passenger {
    Passenger(kind, "", "", "", "male")
  }

  function Field(p: Passenger, field: PassengerField): string {
    match field
    case FirstName => p.firstName
    case LastName => p.lastName
    case Dob => p.dob
    case Gender => p.gender
  }

  /** `updated[index][field] = value` on one entry: that field takes the value, the
      other fields and the passenger type stay. */
  function SetField(p: Passenger, field: PassengerField, value: string): (q: Passenger)
    ensures Field(q, field) == value
    ensures forall other :: other != field ==> Field(q, other) == Field(p, other)
    ensures q.kind == p.kind
  {
    match field
    case FirstName => p.(firstName := value)
    case LastName => p.(lastName := value)
    case Dob => p.(dob := value)
    case Gender => p.(gender := value)
  }

  /** n copies of x. */
  function Repeat(x: Passenger, n: nat): (r: seq<Passenger>)
    ensures |r| == n && forall i | 0 <= i < n :: r[i] == x
  {
    if n == 0 then [] else Repeat(x, n - 1) + [x]
  }

  /** The list the screen starts with: the adults, then the children, then the infants. */
  function Roster(adults: nat, children: nat, infants: nat): seq<Passenger> {
    Repeat(Blank(Adult), adults) + Repeat(Blank(Child), children) + Repeat(Blank(Infant), infants)
  }

  /** The type of the traveller at position i of the roster. */
  function KindAt(i: nat, adults: nat, children: nat): PassengerType {
    if i < adults then Adult else if i < adults + children then Child else Infant
  }

  /** The roster holds one blank entry per traveller, ordered by type. */
  lemma RosterShape(adults: nat, children: nat, infants: nat)
    ensures |Roster(adults, children, infants)| == adults + children + infants
    ensures forall i | 0 <= i < adults + children + infants ::
      Roster(adults, children, infants)[i] == Blank(KindAt(i, adults, children))
  {
  }

  /** The roster holds exactly `adults` adults, `children` children and `infants` infants. */
  lemma RosterCounts(adults: nat, children: nat, infants: nat)
    ensures multiset(Roster(adults, children, infants))[Blank(Adult)] == adults
    ensures multiset(Roster(adults, children, infants))[Blank(Child)] == children
    ensures multiset(Roster(adults, children, infants))[Blank(Infant)] == infants
  {
    RepeatCount(Blank(Adult), adults, Blank(Child));
    RepeatCount(Blank(Adult), adults, Blank(Infant));
    RepeatCount(Blank(Child), children, Blank(Adult));
    RepeatCount(Blank(Child), children, Blank(Infant));
    RepeatCount(Blank(Infant), infants, Blank(Adult));
    RepeatCount(Blank(Infant), infants, Blank(Child));
  }

  lemma {:induction false} RepeatCount(x: Passenger, n: nat, y: Passenger)
    ensures multiset(Repeat(x, n))[x] == n
    ensures y != x ==> multiset(Repeat(x, n))[y] == 0
  {
    if n > 0 {
      RepeatCount(x, n - 1, y);
    }
  }

  /** The passenger-list initialiser: three push loops, one per traveller type. */
  method InitialPassengers(adults: nat, children: nat, infants: nat) returns (passengers: seq<Passenger>)
    ensures passengers == Roster(adults, children, infants)
  {
    passengers := [];
    var i := 0;
    while i < adults
      invariant i <= adults && passengers == Repeat(Blank(Adult), i)
    {
      passengers := passengers + [Blank(Adult)];
      i := i + 1;
    }
    i := 0;
    while i < children
      invariant i <= children && passengers == Repeat(Blank(Adult), adults) + Repeat(Blank(Child), i)
    {
      passengers := passengers + [Blank(Child)];
      i := i + 1;
    }
    i := 0;
    while i < infants
      invariant i <= infants
      invariant passengers == Repeat(Blank(Adult), adults) + Repeat(Blank(Child), children) + Repeat(Blank(Infant), i)
    {
      passengers := passengers + [Blank(Infant)];
      i := i + 1;
    }
  }

  /** The checkout's fare per traveller for a cabin class, in rupees. */
  function CheckoutFare(travelClass: string): (fare: nat)
    ensures fare in {3500, 6500, 12500, 25000} && fare % 10 == 0
    ensures fare == 3500 <==> travelClass == "economy"
    ensures fare == 6500 <==> travelClass == "premium-economy"
    ensures fare == 12500 <==> travelClass == "business"
  {
    if travelClass == "economy" then 3500
    else if travelClass == "premium-economy" then 6500
    else if travelClass == "business" then 12500
    else 25000
  }

  /** What one traveller pays, in tenths of a rupee: the full fare, or a tenth of it for
      an infant. */
  function PassengerFare(kind: PassengerType, fare: nat): nat {
    if kind == Infant then fare else 10 * fare
  }

  function SumFares(passengers: seq<Passenger>, fare: nat): nat {
    if passengers == [] then 0
    else PassengerFare(passengers[0].kind, fare) + SumFares(passengers[1..], fare)
  }

  /** `basePrice = price * (adults + children) + price * infants * 0.1`, in tenths. */
  function BasePrice(fare: nat, adults: nat, children: nat, infants: nat): nat {
    10 * fare * (adults + children) + fare * infants
  }

  /** The base price is what the travellers of the roster pay, one by one. */
  lemma BasePriceIsSumOfFares(fare: nat, adults: nat, children: nat, infants: nat)
    ensures SumFares(Roster(adults, children, infants), fare) == BasePrice(fare, adults, children, infants)
  {
    var a := Repeat(Blank(Adult), adults);
    var c := Repeat(Blank(Child), children);
    var i := Repeat(Blank(Infant), infants);
    SumFaresConcat(a + c, i, fare);
    SumFaresConcat(a, c, fare);
    SumFaresRepeat(Blank(Adult), adults, fare);
    SumFaresRepeat(Blank(Child), children, fare);
    SumFaresRepeat(Blank(Infant), infants, fare);
    GroupFares(fare, adults, children, infants);
  }

  lemma GroupFares(fare: nat, adults: nat, children: nat, infants: nat)
    ensures adults * (10 * fare) + children * (10 * fare) + infants * fare == BasePrice(fare, adults, children, infants)
  {
    assert adults * (10 * fare) + children * (10 * fare) == 10 * fare * (adults + children);
  }

  lemma {:induction false} SumFaresConcat(a: seq<Passenger>, b: seq<Passenger>, fare: nat)
    ensures SumFares(a + b, fare) == SumFares(a, fare) + SumFares(b, fare)
  {
    if a != [] {
      assert (a + b)[1..] == a[1..] + b;
      SumFaresConcat(a[1..], b, fare);
    } else {
      assert a + b == b;
    }
  }

  lemma {:induction false} SumFaresRepeat(x: Passenger, n: nat, fare: nat)
    ensures SumFares(Repeat(x, n), fare) == n * PassengerFare(x.kind, fare)
  {
    if n > 0 {
      var each := PassengerFare(x.kind, fare);
      SumFaresRepeat(x, n - 1, fare);
      SumFaresConcat(Repeat(x, n - 1), [x], fare);
      assert SumFares([x], fare) == each;
      assert (n - 1) * each + each == n * each;
    }
  }

  datatype AddOnKey = Meal | ExtraBaggage | Insurance | SeatSelection

  /** Which optional extras are selected. */
  datatype AddOns = AddOns(meal: bool, extraBaggage: bool, insurance: bool, seatSelection: bool)

  const NoAddOns := AddOns(false, false, false, false)

  /** The extras in the order `Object.entries` lists them. */
  const AddOnKeys: seq<AddOnKey> := [Meal, ExtraBaggage, Insurance, SeatSelection]

  function Selected(a: AddOns, key: AddOnKey): bool {
    match key
    case Meal => a.meal
    case ExtraBaggage => a.extraBaggage
    case Insurance => a.insurance
    case SeatSelection => a.seatSelection
  }

  /** A click on an extra's card: that extra flips, the other three stay. */
  function Flip(a: AddOns, key: AddOnKey): (r: AddOns)
    ensures Selected(r, key) == !Selected(a, key)
    ensures forall other :: other != key ==> Selected(r, other) == Selected(a, other)
  {
    match key
    case Meal => a.(meal := !a.meal)
    case ExtraBaggage => a.(extraBaggage := !a.extraBaggage)
    case Insurance => a.(insurance := !a.insurance)
    case SeatSelection => a.(seatSelection := !a.seatSelection)
  }

  /** Rupees per traveller for each extra. */
  function UnitPrice(key: AddOnKey): nat {
    match key
    case Meal => 500
    case ExtraBaggage => 1000
    case Insurance => 300
    case SeatSelection => 200
  }

  /** The price of one extra for all travellers, or nothing when it is not selected. */
  function Charge(a: AddOns, key: AddOnKey, travellers: nat): nat {
    if Selected(a, key) then UnitPrice(key) * travellers else 0
  }

  /** The `reduce` over the entries: the sum of the charges of the listed extras. */
  function SumSelected(keys: seq<AddOnKey>, a: AddOns, travellers: nat): nat {
    if keys == [] then 0
    else Charge(a, keys[0], travellers) + SumSelected(keys[1..], a, travellers)
  }

  lemma SumOfEntries(a: AddOns, travellers: nat)
    ensures SumSelected(AddOnKeys, a, travellers) ==
      Charge(a, Meal, travellers) + Charge(a, ExtraBaggage, travellers)
      + Charge(a, Insurance, travellers) + Charge(a, SeatSelection, travellers)
  {
    assert SumSelected([SeatSelection], a, travellers) == Charge(a, SeatSelection, travellers);
    assert SumSelected([Insurance, SeatSelection], a, travellers)
      == Charge(a, Insurance, travellers) + SumSelected([SeatSelection], a, travellers);
    assert SumSelected([ExtraBaggage, Insurance, SeatSelection], a, travellers)
      == Charge(a, ExtraBaggage, travellers) + SumSelected([Insurance, SeatSelection], a, travellers);
  }

  /** `addOnsTotal` in rupees. It is zero exactly when nothing is selected or nobody
      travels, and at most 2000 rupees per traveller. */
  function AddOnsTotal(a: AddOns, travellers: nat): (total: nat)
    ensures total == 0 <==> a == NoAddOns || travellers == 0
    ensures total <= 2000 * travellers
  {
    SumOfEntries(a, travellers);
    SumSelected(AddOnKeys, a, travellers)
  }

  /** Selecting an extra adds its price for all travellers; deselecting it takes that off. */
  lemma FlipChangesTotal(a: AddOns, key: AddOnKey, travellers: nat)
    ensures Selected(a, key) ==>
      AddOnsTotal(Flip(a, key), travellers) + UnitPrice(key) * travellers == AddOnsTotal(a, travellers)
    ensures !Selected(a, key) ==>
      AddOnsTotal(Flip(a, key), travellers) == AddOnsTotal(a, travellers) + UnitPrice(key) * travellers
  {
    SumOfEntries(a, travellers);
    SumOfEntries(Flip(a, key), travellers);
    match key
    case Meal =>
    case ExtraBaggage =>
    case Insurance =>
    case SeatSelection =>
  }

  /** `Math.round(subtotal * 0.12)` for a subtotal in tenths, as tenths: the whole number of
      rupees nearest to 12% of the subtotal. */
  function Taxes(subtotal: int): (tenths: int)
    ensures tenths % 10 == 0
    ensures 200 * tenths - 1000 <= 24 * subtotal < 200 * tenths + 1000
  {
    10 * RoundHalfUp(12 * subtotal, 1000)
  }

  /** The price breakdown, every amount in tenths of a rupee. */
  datatype Price = Price(basePrice: int, addOnsTotal: int, taxes: int, total: int)

  /** The breakdown for a fare, the traveller counts and the selected extras. The total
      is the sum of the three lines and lies within half a rupee of 112% of the base
      price plus extras. */
  function Pricing(fare: nat, adults: nat, children: nat, infants: nat, addOns: AddOns): (p: Price)
    ensures p.basePrice == BasePrice(fare, adults, children, infants)
    ensures p.addOnsTotal == 10 * AddOnsTotal(addOns, adults + children + infants)
    ensures p.total == p.basePrice + p.addOnsTotal + p.taxes
    ensures 200 * p.total - 1000 <= 224 * (p.basePrice + p.addOnsTotal) < 200 * p.total + 1000
  {
    var base := BasePrice(fare, adults, children, infants);
    var extras := 10 * AddOnsTotal(addOns, adults + children + infants);
    var taxes := Taxes(base + extras);
    Price(base, extras, taxes, base + extras + taxes)
  }

  /** Fare 3500, two adults and one infant, no extras: 7350 + 882 = 8232 rupees. */
  lemma PricingExample()
    ensures Pricing(3500, 2, 0, 1, NoAddOns) == Price(73500, 0, 8820, 82320)
  {
    RoundHalfUpUnique(12 * 73500, 1000, 882);
  }

  /** With the checkout's fares every amount is a whole number of rupees, and 12% of a
      whole number of rupees is never exactly halfway between two integers, so the
      direction `Math.round` takes on a tie never matters. */
  lemma WholeRupees(travelClass: string, adults: nat, children: nat, infants: nat, addOns: AddOns)
    ensures var p := Pricing(CheckoutFare(travelClass), adults, children, infants, addOns);
      p.basePrice % 10 == 0 && p.total % 10 == 0
      && (12 * ((p.basePrice + p.addOnsTotal) / 10)) % 100 != 50
  {
    var fare := CheckoutFare(travelClass);
    var p := Pricing(fare, adults, children, infants, addOns);
    var tenth := fare / 10;
    var base := 10 * tenth * (adults + children) + tenth * infants;
    assert p.basePrice == 10 * base by {
      assert fare == 10 * tenth;
      BasePriceInRupees(tenth, adults, children, infants);
    }
    var extras := AddOnsTotal(addOns, adults + children + infants);
    var taxes := p.taxes / 10;
    assert p.taxes == 10 * taxes;
    SumOfTenths(p.basePrice, p.addOnsTotal, p.taxes, base, extras, taxes);
    NoHalfWay(base + extras);
  }

  lemma SumOfTenths(x: int, y: int, z: int, a: int, b: int, c: int)
    requires x == 10 * a && y == 10 * b && z == 10 * c
    ensures x % 10 == 0 && (x + y + z) % 10 == 0 && (x + y) / 10 == a + b
  {
  }

  lemma BasePriceInRupees(tenth: nat, adults: nat, children: nat, infants: nat)
    ensures BasePrice(10 * tenth, adults, children, infants) == 10 * (10 * tenth * (adults + children) + tenth * infants)
  {
  }

  lemma NoHalfWay(rupees: int)
    ensures (12 * rupees) % 100 != 50
  {
    // 12 * rupees is a multiple of 4, and so is every multiple of 100; 50 is not.
    var q := (12 * rupees) / 100;
    assert (12 * rupees) % 100 == 4 * (3 * rupees - 25 * q);
  }

  /** What "Continue" / "Pay" did: moved to the next step, handed the breakdown to the
      payment page, or alerted that a required field is missing. */
  datatype NextOutcome = Advanced | Submitted(price: Price) | Rejected

  /** The checkout wizard's state for one flight, class and traveller counts. */
  class CheckoutForm {
    const travelClass: string
    const adults: nat
    const children: nat
    const infants: nat
    var email: string
    var phone: string
    var countryCode: string
    var passengers: seq<Passenger>
    var addOns: AddOns
    var paymentMethod: string
    var cardNumber: string
    var cardName: string
    var cardExpiry: string
    var cardCvv: string
    var agreeTerms: bool
    var currentStep: int

    /** The step is 1, 2 or 3 and the list keeps one entry per traveller, ordered by type. */
    ghost predicate Valid()
      reads this
    {
      && 1 <= currentStep <= 3
      && |passengers| == adults + children + infants
      && forall i | 0 <= i < |passengers| :: passengers[i].kind == KindAt(i, adults, children)
    }

    constructor (travelClass: string, adults: nat, children: nat, infants: nat)
      ensures Valid()
      ensures this.travelClass == travelClass
      ensures this.adults == adults && this.children == children && this.infants == infants
      ensures passengers == Roster(adults, children, infants)
      ensures email == "" && phone == "" && countryCode == "+91"
      ensures addOns == NoAddOns && paymentMethod == "card" && !agreeTerms
      ensures cardNumber == "" && cardName == "" && cardExpiry == "" && cardCvv == ""
      ensures currentStep == 1
    {
      var roster := InitialPassengers(adults, children, infants);
      RosterShape(adults, children, infants);
      this.travelClass := travelClass;
      this.adults, this.children, this.infants := adults, children, infants;
      email, phone, countryCode := "", "", "+91";
      passengers := roster;
      addOns := NoAddOns;
      paymentMethod := "card";
      cardNumber, cardName, cardExpiry, cardCvv := "", "", "", "";
      agreeTerms := false;
      currentStep := 1;
    }

    /** The breakdown the sidebar shows and the payment page receives. */
    function CurrentPrice(): Price
      reads this
    {
      Pricing(CheckoutFare(travelClass), adults, children, infants, addOns)
    }

    /** `validateStep`: step 1 needs the contact fields and every passenger field, step 2
        (extras) is optional, step 3 needs the terms accepted and, for a card, all four card
        fields; any other step is invalid. */
    predicate ValidateStep(step: int)
      reads this
      ensures step == 1 ==> (ValidateStep(step) <==>
        email != "" && phone != "" && forall i | 0 <= i < |passengers| :: PassengerComplete(passengers[i]))
      ensures step == 2 ==> ValidateStep(step)
      ensures step == 3 ==> (ValidateStep(step) <==>
        agreeTerms && (paymentMethod == "card" ==>
          cardNumber != "" && cardName != "" && cardExpiry != "" && cardCvv != ""))
      ensures step !in {1, 2, 3} ==> !ValidateStep(step)
    {
      EveryCompleteMeansAll(passengers);
      if step == 1 then
        email != "" && phone != "" && EveryComplete(passengers)
      else if step == 2 then
        true
      else if step == 3 then
        if paymentMethod == "card" then
          cardNumber != "" && cardName != "" && cardExpiry != "" && cardCvv != "" && agreeTerms
        else
          agreeTerms
      else
        false
    }

    /** "Continue" / "Pay": a valid step before the last advances by one, the valid last
        step submits the current breakdown, and an invalid step stays where it is. */
    method HandleNext() returns (outcome: NextOutcome)
      requires Valid()
      modifies this`currentStep
      ensures Valid()
      ensures old(ValidateStep(currentStep)) && old(currentStep) < 3 ==>
        outcome == Advanced && currentStep == old(currentStep) + 1
      ensures old(ValidateStep(currentStep)) && old(currentStep) == 3 ==>
        outcome == Submitted(CurrentPrice()) && currentStep == 3
      ensures !old(ValidateStep(currentStep)) ==> outcome == Rejected && currentStep == old(currentStep)
    {
      if ValidateStep(currentStep) {
        if currentStep < 3 {
          currentStep := currentStep + 1;
          outcome := Advanced;
        } else {
          outcome := Submitted(CurrentPrice());
        }
      } else {
        outcome := Rejected;
      }
    }

    /** "Previous", offered only after the first step: back by one. */
    method GoBack()
      requires Valid() && currentStep > 1
      modifies this`currentStep
      ensures Valid() && currentStep == old(currentStep) - 1
    {
      currentStep := currentStep - 1;
    }

    /** `updatePassenger`: one field of one entry changes; the length, the other entries
        and the entry's other fields stay. */
    method UpdatePassenger(index: int, field: PassengerField, value: string)
      requires Valid() && 0 <= index < |passengers|
      modifies this`passengers
      ensures Valid()
      ensures |passengers| == |old(passengers)|
      ensures Field(passengers[index], field) == value
      ensures forall other :: other != field ==> Field(passengers[index], other) == Field(old(passengers)[index], other)
      ensures forall j | 0 <= j < |passengers| && j != index :: passengers[j] == old(passengers)[j]
    {
      passengers := passengers[index := SetField(passengers[index], field, value)];
    }

    /** A click on an extra's card. */
    method ToggleAddOn(key: AddOnKey)
      requires Valid()
      modifies this`addOns
      ensures Valid() && addOns == Flip(old(addOns), key)
    {
      addOns := Flip(addOns, key);
    }

    /** The contact fields. */
    method SetContact(email: string, countryCode: string, phone: string)
      requires Valid()
      modifies this`email, this`countryCode, this`phone
      ensures Valid() && this.email == email && this.countryCode == countryCode && this.phone == phone
    {
      this.email, this.countryCode, this.phone := email, countryCode, phone;
    }

    /** A click on a payment method ("card", "upi" or "netbanking"). */
    method ChoosePaymentMethod(method_: string)
      requires Valid()
      modifies this`paymentMethod
      ensures Valid() && paymentMethod == method_
    {
      paymentMethod := method_;
    }

    /** The card fields. */
    method SetCard(number: string, name: string, expiry: string, cvv: string)
      requires Valid()
      modifies this`cardNumber, this`cardName, this`cardExpiry, this`cardCvv
      ensures Valid()
      ensures cardNumber == number && cardName == name && cardExpiry == expiry && cardCvv == cvv
    {
      cardNumber, cardName, cardExpiry, cardCvv := number, name, expiry, cvv;
    }

    /** The terms checkbox. */
    method SetAgreeTerms(checked: bool)
      requires Valid()
      modifies this`agreeTerms
      ensures Valid() && agreeTerms == checked
    {
      agreeTerms := checked;
    }
  }

  /** Every field of the entry is non-empty. */
  predicate PassengerComplete(p: Passenger) {
    p.firstName != "" && p.lastName != "" && p.dob != "" && p.gender != ""
  }

  /** `passengers.every(...)`, scanning from the front. */
  predicate EveryComplete(passengers: seq<Passenger>) {
    passengers == [] || (PassengerComplete(passengers[0]) && EveryComplete(passengers[1..]))
  }

  lemma {:induction false} EveryCompleteMeansAll(passengers: seq<Passenger>)
    ensures EveryComplete(passengers) <==> forall i | 0 <= i < |passengers| :: PassengerComplete(passengers[i])
  {
    if passengers != [] {
      EveryCompleteMeansAll(passengers[1..]);
      assert forall i | 1 <= i < |passengers| :: passengers[i] == passengers[1..][i - 1];
    }
  }
}
