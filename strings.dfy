/** String helpers the handlers rely on: ASCII digits, `toLowerCase`,
    `includes`, the decimal rendering of a natural number, and splitting at
    the first occurrence of a delimiter. */
module Strings {
  import opened Common

  predicate IsDigit(c: char) {
    '0' <= c <= '9'
  }

  /** A string matched by the regular expression `\d+`. */
  predicate IsDigits(s: string) {
    |s| > 0 && forall i :: 0 <= i < |s| ==> IsDigit(s[i])
  }

  // ---------------------------------------------------------------------------
  // Lower-casing (ASCII only)

  function LowerChar(c: char): (r: char)
    ensures 'A' <= c <= 'Z' ==> r as int == c as int + 32
    ensures !('A' <= c <= 'Z') ==> r == c
  {
    if 'A' <= c <= 'Z' then (c as int + 32) as char else c
  }

  function Lower(s: string): (r: string)
    ensures |r| == |s|
    ensures forall i :: 0 <= i < |s| ==> r[i] == LowerChar(s[i])
  {
    if s == [] then [] else [LowerChar(s[0])] + Lower(s[1..])
  }

  /** Lower-casing leaves no upper-case ASCII letter and is idempotent. */
  lemma LowerIdempotent(s: string)
    ensures forall i :: 0 <= i < |s| ==> !('A' <= Lower(s)[i] <= 'Z')
    ensures Lower(Lower(s)) == Lower(s)
  {
  }

  /** Lower-casing works character by character, so it distributes over concatenation. */
  lemma LowerConcat(a: string, b: string)
    ensures Lower(a + b) == Lower(a) + Lower(b)
  {
  }

  // ---------------------------------------------------------------------------
  // Substring test (`String.prototype.includes`)

  /** True when `p` occurs in `s` at index `i`. */
  predicate OccursAt(s: string, p: string, i: nat) {
    i + |p| <= |s| && s[i..i + |p|] == p
  }

  function Contains(s: string, p: string): bool {
    |p| <= |s| && (s[..|p|] == p || Contains(s[1..], p))
  }

  /** `Contains` is exactly "occurs at some index". */
  lemma {:induction false} ContainsIff(s: string, p: string)
    ensures Contains(s, p) <==> exists i: nat :: OccursAt(s, p, i)
  {
    if |p| <= |s| {
      if s[..|p|] == p {
        assert OccursAt(s, p, 0);
      } else {
        ContainsIff(s[1..], p);
        if Contains(s[1..], p) {
          var i: nat :| OccursAt(s[1..], p, i);
          assert s[i + 1..i + 1 + |p|] == s[1..][i..i + |p|];
          assert OccursAt(s, p, i + 1);
        } else {
          forall i: nat | OccursAt(s, p, i) ensures false {
            if i > 0 {
              assert s[1..][i - 1..i - 1 + |p|] == s[i..i + |p|];
              assert OccursAt(s[1..], p, i - 1);
            }
          }
        }
      }
    } else {
      forall i: nat | OccursAt(s, p, i) ensures false { }
    }
  }

  /** A string contains itself wherever it stands. */
  lemma ContainsInfix(a: string, p: string, b: string)
    ensures Contains(a + p + b, p)
  {
    var s := a + p + b;
    assert s[|a|..|a| + |p|] == p;
    assert OccursAt(s, p, |a|);
    ContainsIff(s, p);
  }

  // ---------------------------------------------------------------------------
  // Decimal rendering of a natural number (`${n}` for a non-negative integer)

  function DigitChar(d: nat): (c: char)
    requires d < 10
    ensures IsDigit(c) && c as int - '0' as int == d
  {
    ('0' as int + d) as char
  }

  function DigitValue(c: char): (d: nat)
    requires IsDigit(c)
    ensures d < 10
  {
    c as int - '0' as int
  }

  function Decimal(n: nat): (s: string)
    ensures IsDigits(s)
  {
    if n < 10 then [DigitChar(n)] else Decimal(n / 10) + [DigitChar(n % 10)]
  }

  function ParseDecimal(s: string): nat
    requires forall i :: 0 <= i < |s| ==> IsDigit(s[i])
  {
    if s == [] then 0 else ParseDecimal(s[..|s| - 1]) * 10 + DigitValue(s[|s| - 1])
  }

  lemma {:induction false} DecimalRoundTrip(n: nat)
    ensures ParseDecimal(Decimal(n)) == n
  {
    var s := Decimal(n);
    if n >= 10 {
      DecimalRoundTrip(n / 10);
      assert s[..|s| - 1] == Decimal(n / 10);
    }
  }

  /** Distinct numbers render as distinct strings. */
  lemma DecimalInjective(a: nat, b: nat)
    ensures Decimal(a) == Decimal(b) ==> a == b
  {
    DecimalRoundTrip(a);
    DecimalRoundTrip(b);
  }

  // ---------------------------------------------------------------------------
  // Splitting at the first occurrence of a delimiter

  /** The text before and after the first `d` in `s`, if there is one. */
  function SplitFirst(s: string, d: char): (r: Option<(string, string)>)
    ensures r.None? ==> d !in s
    ensures r.Some? ==> d !in r.value.0 && s == r.value.0 + [d] + r.value.1
  {
    if s == [] then None
    else if s[0] == d then Some(([], s[1..]))
    else match SplitFirst(s[1..], d)
      case None => None
      case Some((before, after)) => Some(([s[0]] + before, after))
  }

  /** Splitting recovers both halves when the first half is free of the delimiter. */
  lemma {:induction false} SplitFirstJoin(x: string, d: char, y: string)
    requires d !in x
    ensures SplitFirst(x + [d] + y, d) == Some((x, y))
  {
    if x != [] {
      var s := x + [d] + y;
      assert s[0] == x[0] && x[0] != d;
      assert s[1..] == x[1..] + [d] + y;
      SplitFirstJoin(x[1..], d, y);
      assert [x[0]] + x[1..] == x;
    }
  }
}
