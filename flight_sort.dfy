/** The sort step of the results screen: `Array.prototype.sort`, which is stable, with
    the comparator of the chosen order. It is modelled as insertion sort, and proved to
    give a permutation of its input that is ordered by the key and keeps tied offers in
    their prior order. */
module FlightSort {
  import opened Text
  import opened Seqs
  import opened Flights

  /** The `sortBy` choices of the results screen. */
  datatype SortOrder = Cheapest | Fastest | Earliest

  /** The comparator of the order says a may come before b (its value is at most 0):
      price, `parseFloat` of the duration (the whole hours, see DurationParsesToHours), or
      the "HH:MM" departure text compared character by character. */
  predicate KeyLe(o: SortOrder, a: Flight, b: Flight) {
    match o
    case Cheapest => a.price <= b.price
    case Fastest => a.durationHours <= b.durationHours
    case Earliest => LexLe(a.departureTime, b.departureTime)
  }

  /** a and b tie under the order: the comparator returns 0. */
  predicate SameKey(o: SortOrder, a: Flight, b: Flight) {
    match o
    case Cheapest => a.price == b.price
    case Fastest => a.durationHours == b.durationHours
    case Earliest => a.departureTime == b.departureTime
  }

  lemma KeyLeReflexive(o: SortOrder, a: Flight)
    ensures KeyLe(o, a, a)
  {
    LexLeReflexive(a.departureTime);
  }

  lemma KeyLeTotal(o: SortOrder, a: Flight, b: Flight)
    ensures KeyLe(o, a, b) || KeyLe(o, b, a)
  {
    LexLeTotal(a.departureTime, b.departureTime);
  }

  lemma KeyLeTransitive(o: SortOrder, a: Flight, b: Flight, c: Flight)
    requires KeyLe(o, a, b) && KeyLe(o, b, c)
    ensures KeyLe(o, a, c)
  {
    if o.Earliest? {
      LexLeTransitive(a.departureTime, b.departureTime, c.departureTime);
    }
  }

  /** Two offers tie exactly when each may come before the other. */
  lemma SameKeyIsTie(o: SortOrder, a: Flight, b: Flight)
    ensures SameKey(o, a, b) <==> KeyLe(o, a, b) && KeyLe(o, b, a)
  {
    if o.Earliest? {
      LexLeReflexive(a.departureTime);
      if LexLe(a.departureTime, b.departureTime) && LexLe(b.departureTime, a.departureTime) {
        LexLeAntisymmetric(a.departureTime, b.departureTime);
      }
    }
  }

  /** s is in non-decreasing order of the key. */
  predicate Sorted(o: SortOrder, s: seq<Flight>) {
    forall i, j | 0 <= i < j < |s| :: KeyLe(o, s[i], s[j])
  }

  /** The offers that tie with g, as a filter predicate. */
  function TiesWith(o: SortOrder, g: Flight): Flight -> bool {
    y => SameKey(o, y, g)
  }

  /** The offers of s that tie with g, in their order in s. A sort is stable when this
      subsequence is the same before and after, for every g. */
  function Ties(s: seq<Flight>, o: SortOrder, g: Flight): seq<Flight> {
    Filter(s, TiesWith(o, g))
  }

  /** x placed after every offer of s that may come before it. */
  function Insert(s: seq<Flight>, x: Flight, o: SortOrder): seq<Flight>
    decreases |s|
  {
    if s == [] then [x]
    else if KeyLe(o, s[0], x) then [s[0]] + Insert(s[1..], x, o)
    else [x] + s
  }

  /** Inserting into an ordered sequence keeps it ordered and adds exactly x. */
  lemma {:induction false} InsertKeepsSorted(s: seq<Flight>, x: Flight, o: SortOrder)
    requires Sorted(o, s)
    ensures Sorted(o, Insert(s, x, o))
    ensures multiset(Insert(s, x, o)) == multiset(s) + multiset{x}
    decreases |s|
  {
    if s == [] {
    } else if KeyLe(o, s[0], x) {
      var t := s[1..];
      assert Sorted(o, t);
      InsertKeepsSorted(t, x, o);
      var r := Insert(t, x, o);
      assert s == [s[0]] + t;
      BoundedByMultiset(o, s[0], t, x, r);
      ConsSorted(o, s[0], r);
    } else {
      LowerBound(s, x, o);
      ConsSorted(o, x, s);
    }
  }

  /** An offer that sorts before the first offer of a sorted sequence sorts before all. */
  lemma LowerBound(s: seq<Flight>, x: Flight, o: SortOrder)
    requires Sorted(o, s) && s != [] && !KeyLe(o, s[0], x)
    ensures forall j | 0 <= j < |s| :: KeyLe(o, x, s[j])
  {
    KeyLeTotal(o, s[0], x);
    forall j | 0 <= j < |s|
      ensures KeyLe(o, x, s[j])
    {
      if j > 0 {
        KeyLeTransitive(o, x, s[0], s[j]);
      }
    }
  }

  /** An offer no later than every offer of a sorted sequence can go in front of it. */
  lemma ConsSorted(o: SortOrder, y: Flight, r: seq<Flight>)
    requires Sorted(o, r)
    requires forall j | 0 <= j < |r| :: KeyLe(o, y, r[j])
    ensures Sorted(o, [y] + r)
  {
  }

  /** A lower bound of t and of x is a lower bound of every rearrangement of t and x. */
  lemma BoundedByMultiset(o: SortOrder, y: Flight, t: seq<Flight>, x: Flight, r: seq<Flight>)
    requires forall k | 0 <= k < |t| :: KeyLe(o, y, t[k])
    requires KeyLe(o, y, x)
    requires multiset(r) == multiset(t) + multiset{x}
    ensures forall j | 0 <= j < |r| :: KeyLe(o, y, r[j])
  {
    forall j | 0 <= j < |r|
      ensures KeyLe(o, y, r[j])
    {
      assert r[j] in multiset(r);
      if r[j] != x {
        assert r[j] in multiset(t);
        var k :| 0 <= k < |t| && t[k] == r[j];
      }
    }
  }

  /** `result.sort(comparator)`: insertion sort, taking the offers from first to last. */
  function Sort(s: seq<Flight>, o: SortOrder): (r: seq<Flight>)
    ensures Sorted(o, r)
    ensures multiset(r) == multiset(s)
    decreases |s|
  {
    if s == [] then []
    else
      var init, x := s[..|s| - 1], s[|s| - 1];
      assert s == init + [x];
      InsertKeepsSorted(Sort(init, o), x, o);
      Insert(Sort(init, o), x, o)
  }

  /** A sorted sequence holds no offer that ties with x before an offer that sorts after x. */
  lemma NoTiesAfterLarger(s: seq<Flight>, x: Flight, o: SortOrder, g: Flight)
    requires Sorted(o, s) && s != [] && !KeyLe(o, s[0], x) && SameKey(o, x, g)
    ensures Ties(s, o, g) == []
  {
    var t := Ties(s, o, g);
    if t != [] {
      var y := t[0];
      assert y in t;
      FilterMembers(s, TiesWith(o, g));
      var k :| 0 <= k < |s| && s[k] == y;
      SameKeyIsTie(o, y, g);
      SameKeyIsTie(o, x, g);
      KeyLeTransitive(o, y, g, x);
      if k == 0 {
      } else {
        KeyLeTransitive(o, s[0], y, x);
      }
    }
  }

  /** Insertion keeps the tied offers of s in order and puts x after those that tie with it. */
  lemma {:induction false} InsertKeepsTies(s: seq<Flight>, x: Flight, o: SortOrder, g: Flight)
    requires Sorted(o, s)
    ensures Ties(Insert(s, x, o), o, g) == Ties(s, o, g) + (if SameKey(o, x, g) then [x] else [])
    decreases |s|, 1
  {
    if s == [] {
      TiesOfCons(x, [], o, g);
      assert [x] + [] == [x];
    } else if KeyLe(o, s[0], x) {
      InsertBehindTies(s, x, o, g);
    } else {
      InsertInFrontTies(s, x, o, g);
    }
  }

  /** x goes behind the first offer of s, which may precede it: the ties of the rest, by
      induction, with s[0] in front when it ties. */
  lemma {:induction false} InsertBehindTies(s: seq<Flight>, x: Flight, o: SortOrder, g: Flight)
    requires Sorted(o, s) && s != [] && KeyLe(o, s[0], x)
    ensures Ties(Insert(s, x, o), o, g) == Ties(s, o, g) + (if SameKey(o, x, g) then [x] else [])
    decreases |s|, 0
  {
    var t := s[1..];
    assert s == [s[0]] + t;
    assert Sorted(o, t);
    InsertKeepsTies(t, x, o, g);
    TiesOfCons(s[0], t, o, g);
    TiesOfCons(s[0], Insert(t, x, o), o, g);
  }

  /** x goes in front of a sorted s whose first offer sorts after it; no offer of s ties
      with x then. */
  lemma InsertInFrontTies(s: seq<Flight>, x: Flight, o: SortOrder, g: Flight)
    requires Sorted(o, s) && s != [] && !KeyLe(o, s[0], x)
    ensures Ties(Insert(s, x, o), o, g) == Ties(s, o, g) + (if SameKey(o, x, g) then [x] else [])
  {
    TiesOfCons(x, s, o, g);
    if SameKey(o, x, g) {
      NoTiesAfterLarger(s, x, o, g);
    }
  }

  /** The ties of a sequence with a first element y: y's own, then those of the rest. */
  lemma TiesOfCons(y: Flight, t: seq<Flight>, o: SortOrder, g: Flight)
    ensures Ties([y] + t, o, g) == (if SameKey(o, y, g) then [y] else []) + Ties(t, o, g)
  {
    FilterConcat([y], t, TiesWith(o, g));
    assert Filter([y], TiesWith(o, g)) == if SameKey(o, y, g) then [y] else [];
  }

  /** The sort is stable: for every offer g, the offers that tie with g come out in the
      order they went in. */
  lemma {:induction false} SortIsStable(s: seq<Flight>, o: SortOrder, g: Flight)
    ensures Ties(Sort(s, o), o, g) == Ties(s, o, g)
    decreases |s|
  {
    if s != [] {
      var init, x := s[..|s| - 1], s[|s| - 1];
      assert s == init + [x];
      SortIsStable(init, o, g);
      InsertKeepsTies(Sort(init, o), x, o, g);
      FilterConcat(init, [x], TiesWith(o, g));
      assert Filter([x], TiesWith(o, g)) == if SameKey(o, x, g) then [x] else [];
    }
  }

  /** Inserting an offer that every offer of s may precede appends it. */
  lemma {:induction false} InsertLargest(s: seq<Flight>, x: Flight, o: SortOrder)
    requires forall i | 0 <= i < |s| :: KeyLe(o, s[i], x)
    ensures Insert(s, x, o) == s + [x]
    decreases |s|
  {
    if s != [] {
      InsertLargest(s[1..], x, o);
      assert s == [s[0]] + s[1..];
    }
  }

  /** Sorting an ordered sequence leaves it as it is. */
  lemma {:induction false} SortOfSorted(s: seq<Flight>, o: SortOrder)
    requires Sorted(o, s)
    ensures Sort(s, o) == s
    decreases |s|
  {
    if s != [] {
      var init, x := s[..|s| - 1], s[|s| - 1];
      assert s == init + [x];
      assert Sorted(o, init);
      SortOfSorted(init, o);
      InsertLargest(init, x, o);
    }
  }
}
