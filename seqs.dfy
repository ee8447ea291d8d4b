/** `Array.prototype.filter` on sequences, and the facts the result filters rely on;
    the sequence a counting loop builds by appending one computed element per step. */
module Seqs {

  /** [f(0), ..., f(k - 1)]. */
  ghost function Tabulate<T>(k: nat, f: nat --> T): (s: seq<T>)
    requires forall j | 0 <= j < k :: f.requires(j)
    ensures |s| == k
  {
    if k == 0 then [] else Tabulate(k - 1, f) + [f(k - 1)]
  }

  /** A counting loop that appends f(i) for i from 0 to k - 1. */
  method Collect<T>(k: nat, f: nat --> T) returns (s: seq<T>)
    requires forall j | 0 <= j < k :: f.requires(j)
    ensures s == Tabulate(k, f)
  {
    s := [];
    var i := 0;
    while i < k
      invariant 0 <= i <= k
      invariant s == Tabulate(i, f)
    {
      s := s + [f(i)];
      i := i + 1;
    }
  }

  /** Element i of the tabulation is f(i). */
  lemma {:induction false} TabulateAt<T>(k: nat, i: nat, f: nat --> T)
    requires i < k
    requires forall j | 0 <= j < k :: f.requires(j)
    ensures Tabulate(k, f)[i] == f(i)
  {
    if i < k - 1 {
      TabulateAt(k - 1, i, f);
    }
  }

  /** The elements of s that satisfy p, in their order in s. */
  function Filter<T(!new)>(s: seq<T>, p: T -> bool): (r: seq<T>)
    ensures |r| <= |s|
  {
    if s == [] then []
    else (if p(s[0]) then [s[0]] else []) + Filter(s[1..], p)
  }

  /** The result holds exactly the elements of s that pass. */
  lemma {:induction false} FilterMembers<T(!new)>(s: seq<T>, p: T -> bool)
    ensures forall x :: x in Filter(s, p) <==> x in s && p(x)
  {
    if s != [] {
      FilterMembers(s[1..], p);
      assert s == [s[0]] + s[1..];
    }
  }

  /** Filtering keeps every passing element as often as it occurs and drops the rest:
      nothing is invented, duplicated or lost. */
  lemma {:induction false} FilterMultiset<T(!new)>(s: seq<T>, p: T -> bool, x: T)
    ensures multiset(Filter(s, p))[x] == if p(x) then multiset(s)[x] else 0
  {
    if s != [] {
      FilterMultiset(s[1..], p, x);
      assert s == [s[0]] + s[1..];
    }
  }

  /** Filtering distributes over concatenation. */
  lemma {:induction false} FilterConcat<T(!new)>(a: seq<T>, b: seq<T>, p: T -> bool)
    ensures Filter(a + b, p) == Filter(a, p) + Filter(b, p)
  {
    if a == [] {
      assert a + b == b;
    } else {
      var head := if p(a[0]) then [a[0]] else [];
      assert (a + b)[0] == a[0] && (a + b)[1..] == a[1..] + b;
      calc {
        Filter(a + b, p);
        head + Filter(a[1..] + b, p);
        { FilterConcat(a[1..], b, p); }
        head + (Filter(a[1..], p) + Filter(b, p));
        (head + Filter(a[1..], p)) + Filter(b, p);
        Filter(a, p) + Filter(b, p);
      }
    }
  }

  /** Filtering keeps everything when everything passes. */
  lemma {:induction false} FilterKeepsAll<T(!new)>(s: seq<T>, p: T -> bool)
    requires forall i | 0 <= i < |s| :: p(s[i])
    ensures Filter(s, p) == s
  {
    if s != [] {
      FilterKeepsAll(s[1..], p);
      assert s == [s[0]] + s[1..];
    }
  }

  /** Filtering with two predicates that agree on the elements gives the same result. */
  lemma {:induction false} FilterSame<T(!new)>(s: seq<T>, p: T -> bool, q: T -> bool)
    requires forall i | 0 <= i < |s| :: p(s[i]) == q(s[i])
    ensures Filter(s, p) == Filter(s, q)
  {
    if s != [] {
      FilterSame(s[1..], p, q);
    }
  }

  /** Filtering by p and then by q is filtering once by "p and q". */
  lemma {:induction false} FilterCompose<T(!new)>(s: seq<T>, p: T -> bool, q: T -> bool, pq: T -> bool)
    requires forall x :: pq(x) == (p(x) && q(x))
    ensures Filter(Filter(s, p), q) == Filter(s, pq)
  {
    if s != [] {
      FilterCompose(s[1..], p, q, pq);
      var head := if p(s[0]) then [s[0]] else [];
      FilterConcat(head, Filter(s[1..], p), q);
    }
  }

  /** Filtering twice by the same predicate is filtering once. */
  lemma FilterIdempotent<T(!new)>(s: seq<T>, p: T -> bool)
    ensures Filter(Filter(s, p), p) == Filter(s, p)
  {
    var r := Filter(s, p);
    FilterMembers(s, p);
    assert forall i | 0 <= i < |r| :: r[i] in r;
    FilterKeepsAll(r, p);
  }
}
