/** The little string handling the booking screens rely on: decimal text of numbers
    (`toString`, `padStart`), reading a leading integer back (`parseInt`, and
    `parseFloat` on text without a fraction), `String.prototype.replace` with a
    string pattern, ASCII upper-casing and the ordering used to compare
    clock-time strings. */
module Text {
  import opened Wrappers

  predicate IsDigit(c: char) {
    '0' <= c <= '9'
  }

  predicate AllDigits(s: string) {
    forall i | 0 <= i < |s| :: IsDigit(s[i])
  }

  function DigitChar(d: nat): (c: char)
    requires d < 10
    ensures IsDigit(c) && DigitValue(c) == d
  {
    (('0' as int) + d) as char
  }

  /** The value of one decimal digit; 0 for any other character. */
  function DigitValue(c: char): nat {
    if IsDigit(c) then (c as int) - ('0' as int) else 0
  }

  /** The decimal text of a non-negative integer, as `n.toString()` writes it. */
  function NatToString(n: nat): string
    decreases n
  {
    if n < 10 then [DigitChar(n)] else NatToString(n / 10) + [DigitChar(n % 10)]
  }

  /** The decimal text of a number is a non-empty run of digits. */
  lemma {:induction false} NatToStringDigits(n: nat)
    ensures |NatToString(n)| > 0 && AllDigits(NatToString(n))
    decreases n
  {
    if n >= 10 {
      NatToStringDigits(n / 10);
    }
  }

  /** The value of a string of decimal digits, most significant first. */
  function DigitsValue(d: string): nat {
    if d == [] then 0 else DigitsValue(d[..|d| - 1]) * 10 + DigitValue(d[|d| - 1])
  }

  /** Reading back the decimal text of n gives n. */
  lemma {:induction false} NatToStringValue(n: nat)
    ensures DigitsValue(NatToString(n)) == n
    decreases n
  {
    if n >= 10 {
      var s := NatToString(n);
      assert s[..|s| - 1] == NatToString(n / 10);
      NatToStringValue(n / 10);
    }
  }

  /** Distinct numbers have distinct decimal texts. */
  lemma NatToStringInjective(m: nat, n: nat)
    requires NatToString(m) == NatToString(n)
    ensures m == n
  {
    NatToStringValue(m);
    NatToStringValue(n);
  }

  /** `n.toString().padStart(2, '0')`. */
  function Pad2(n: nat): string {
    if n < 10 then "0" + NatToString(n) else NatToString(n)
  }

  /** Below 100 the padded text is exactly two digits, and reads back as n. */
  lemma Pad2Digits(n: nat)
    requires n < 100
    ensures |Pad2(n)| == 2 && AllDigits(Pad2(n)) && DigitsValue(Pad2(n)) == n
  {
    if n < 10 {
      assert Pad2(n) == ['0', DigitChar(n)];
      assert Pad2(n)[..1] == "0" && DigitsValue("0") == 0;
    } else {
      assert NatToString(n) == NatToString(n / 10) + [DigitChar(n % 10)];
      NatToStringValue(n);
    }
  }

  /** The longest prefix of s made of decimal digits. */
  function LeadingDigits(s: string): (d: string)
    ensures d <= s && AllDigits(d)
    ensures |d| == |s| || !IsDigit(s[|d|])
  {
    if s == [] || !IsDigit(s[0]) then [] else [s[0]] + LeadingDigits(s[1..])
  }

  /** `parseInt(s)` with the default radix on text that starts with an optional sign and
      digits: the value of the leading digits, or None (JavaScript's NaN) when there are none. */
  function ParseLeadingInt(s: string): (r: Option<int>)
    ensures r.None? <==> LeadingDigits(if |s| > 0 && (s[0] == '+' || s[0] == '-') then s[1..] else s) == []
    ensures r.Some? && |s| > 0 && IsDigit(s[0]) ==> r.value >= 0
  {
    var signed := |s| > 0 && (s[0] == '+' || s[0] == '-');
    var d := LeadingDigits(if signed then s[1..] else s);
    if d == [] then None
    else if signed && s[0] == '-' then Some(-(DigitsValue(d) as int))
    else Some(DigitsValue(d))
  }

  /** The leading digits of a run of digits followed by a non-digit are that run. */
  lemma {:induction false} LeadingDigitsOf(d: string, rest: string)
    requires AllDigits(d)
    requires rest == [] || !IsDigit(rest[0])
    ensures LeadingDigits(d + rest) == d
  {
    if d != [] {
      assert (d + rest)[1..] == d[1..] + rest;
      LeadingDigitsOf(d[1..], rest);
      assert d == [d[0]] + d[1..];
    }
  }

  /** Reading an integer from text that begins with the decimal text of n, followed by
      anything that is not a digit, gives n back: `parseInt` undoes `toString`. */
  lemma ParseNatToString(n: nat, rest: string)
    requires rest == [] || !IsDigit(rest[0])
    ensures ParseLeadingInt(NatToString(n) + rest) == Some(n)
  {
    var s := NatToString(n) + rest;
    assert s[0] == NatToString(n)[0];
    NatToStringDigits(n);
    LeadingDigitsOf(NatToString(n), rest);
    NatToStringValue(n);
  }

  /** `parseInt` of any non-empty run of digits followed by a non-digit is the value of
      that run, leading zeros included. */
  lemma ParseDigits(d: string, rest: string)
    requires d != [] && AllDigits(d)
    requires rest == [] || !IsDigit(rest[0])
    ensures ParseLeadingInt(d + rest) == Some(DigitsValue(d))
  {
    assert (d + rest)[0] == d[0];
    LeadingDigitsOf(d, rest);
  }

  /** After a sign, `parseInt` reads the decimal text of n as n, negated for a minus. */
  lemma ParseSignedNatToString(sign: char, n: nat, rest: string)
    requires sign == '+' || sign == '-'
    requires rest == [] || !IsDigit(rest[0])
    ensures ParseLeadingInt([sign] + NatToString(n) + rest) == Some(if sign == '-' then -(n as int) else n as int)
  {
    var d := NatToString(n);
    var s := [sign] + d + rest;
    assert s[0] == sign && s[1..] == d + rest;
    NatToStringDigits(n);
    LeadingDigitsOf(d, rest);
    assert LeadingDigits(s[1..]) == d;
    NatToStringValue(n);
  }

  /** s starts with p. */
  predicate StartsWith(s: string, p: string) {
    |p| <= |s| && s[..|p|] == p
  }

  /** `s.replace(pat, rep)` with a string pattern: the first occurrence of pat, if any,
      is replaced by rep. */
  function ReplaceFirst(s: string, pat: string, rep: string): (r: string)
    requires |pat| > 0
    ensures StartsWith(s, pat) ==> r == rep + s[|pat|..]
    ensures |s| < |pat| ==> r == s
    decreases |s|
  {
    if |s| < |pat| then s
    else if StartsWith(s, pat) then rep + s[|pat|..]
    else [s[0]] + ReplaceFirst(s[1..], pat, rep)
  }

  /** pat occurs in s at position k. */
  predicate OccursAt(s: string, pat: string, k: nat) {
    k + |pat| <= |s| && s[k..k + |pat|] == pat
  }

  /** Dropping the first character moves every occurrence one position to the left. */
  lemma OccursInTail(s: string, pat: string, k: nat)
    requires |s| > 0
    ensures OccursAt(s, pat, k + 1) <==> OccursAt(s[1..], pat, k)
  {
    if k + 1 + |pat| <= |s| {
      assert s[1..][k..k + |pat|] == s[k + 1..k + 1 + |pat|];
    }
  }

  /** When the first occurrence of pat is at k, `replace` puts rep in its place and keeps
      the text before and after it. */
  lemma {:induction false} ReplaceFirstAt(s: string, pat: string, rep: string, k: nat)
    requires |pat| > 0
    requires OccursAt(s, pat, k)
    requires forall j: nat | j < k :: !OccursAt(s, pat, j)
    ensures ReplaceFirst(s, pat, rep) == s[..k] + rep + s[k + |pat|..]
    decreases k
  {
    if k == 0 {
      assert StartsWith(s, pat);
    } else {
      assert !OccursAt(s, pat, 0);
      assert !StartsWith(s, pat);
      var t := s[1..];
      OccursInTail(s, pat, k - 1);
      forall j: nat | j < k - 1
        ensures !OccursAt(t, pat, j)
      {
        OccursInTail(s, pat, j);
      }
      ReplaceFirstAt(t, pat, rep, k - 1);
      assert ReplaceFirst(s, pat, rep) == [s[0]] + ReplaceFirst(t, pat, rep);
      ConsSplit(s, k, |pat|, rep);
    }
  }

  /** The first character in front of a split of the rest is the same split of s. */
  lemma ConsSplit(s: string, k: nat, n: nat, rep: string)
    requires 0 < k && k + n <= |s|
    ensures [s[0]] + (s[1..][..k - 1] + rep + s[1..][k - 1 + n..]) == s[..k] + rep + s[k + n..]
  {
    assert s[..k] == [s[0]] + s[1..][..k - 1];
    assert s[1..][k - 1 + n..] == s[k + n..];
  }

  /** Text in which pat does not occur is returned unchanged. */
  lemma {:induction false} ReplaceFirstAbsent(s: string, pat: string, rep: string)
    requires |pat| > 0
    requires forall k: nat :: !OccursAt(s, pat, k)
    ensures ReplaceFirst(s, pat, rep) == s
    decreases |s|
  {
    if |s| >= |pat| {
      assert !OccursAt(s, pat, 0);
      assert !StartsWith(s, pat);
      var t := s[1..];
      forall k: nat
        ensures !OccursAt(t, pat, k)
      {
        OccursInTail(s, pat, k);
      }
      ReplaceFirstAbsent(t, pat, rep);
      assert s == [s[0]] + t;
    }
  }

  function UpperChar(c: char): char {
    if 'a' <= c <= 'z' then ((c as int) - 32) as char else c
  }

  /** `s.toUpperCase()` restricted to ASCII letters. */
  function ToUpperAscii(s: string): (u: string)
    ensures |u| == |s|
    ensures forall i | 0 <= i < |u| :: u[i] == UpperChar(s[i]) && !('a' <= u[i] <= 'z')
  {
    seq(|s|, i requires 0 <= i < |s| => UpperChar(s[i]))
  }

  /** Upper-casing twice is upper-casing once. */
  lemma ToUpperIdempotent(s: string)
    ensures ToUpperAscii(ToUpperAscii(s)) == ToUpperAscii(s)
  {
    var u := ToUpperAscii(s);
    assert forall i | 0 <= i < |u| :: UpperChar(u[i]) == u[i];
  }

  /** Lexicographic order on character codes: a comes no later than b. */
  predicate LexLe(a: string, b: string) {
    a == [] || (b != [] && (a[0] < b[0] || (a[0] == b[0] && LexLe(a[1..], b[1..]))))
  }

  lemma {:induction false} LexLeReflexive(a: string)
    ensures LexLe(a, a)
  {
    if a != [] {
      LexLeReflexive(a[1..]);
    }
  }

  lemma {:induction false} LexLeTotal(a: string, b: string)
    ensures LexLe(a, b) || LexLe(b, a)
  {
    if a != [] && b != [] && a[0] == b[0] {
      LexLeTotal(a[1..], b[1..]);
    }
  }

  lemma {:induction false} LexLeTransitive(a: string, b: string, c: string)
    requires LexLe(a, b) && LexLe(b, c)
    ensures LexLe(a, c)
  {
    if a != [] && b != [] && c != [] && a[0] == b[0] && b[0] == c[0] {
      LexLeTransitive(a[1..], b[1..], c[1..]);
    }
  }

  lemma {:induction false} LexLeAntisymmetric(a: string, b: string)
    requires LexLe(a, b) && LexLe(b, a)
    ensures a == b
  {
    if a != [] && b != [] {
      LexLeAntisymmetric(a[1..], b[1..]);
      assert a == [a[0]] + a[1..] && b == [b[0]] + b[1..];
    }
  }
}
