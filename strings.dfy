/**
 * The two string operations the blur factory relies on: a global replace of a
 * literal pattern (`String.prototype.replace` with a `g` regular expression
 * whose only special character is an escaped `$`) and the decimal rendering
 * of a non-negative integer that JavaScript performs when a number is given
 * as the replacement.
 */
module Strings {

  predicate StartsWith(s: string, p: string) {
    |p| <= |s| && s[..|p|] == p
  }

  /** `p` occurs in `s` at some position. */
  predicate Occurs(s: string, p: string)
    decreases |s|
  {
    StartsWith(s, p) || (|s| > 0 && Occurs(s[1..], p))
  }

  predicate IsDigit(c: char) {
    '0' <= c <= '9'
  }

  predicate AllDigits(s: string) {
    forall i :: 0 <= i < |s| ==> IsDigit(s[i])
  }

  predicate NoDigits(s: string) {
    forall i :: 0 <= i < |s| ==> !IsDigit(s[i])
  }

  /**
   * Replace every occurrence of `p` in `s` by `r`, scanning left to right:
   * matches do not overlap and the inserted text is never scanned again.
   */
  function ReplaceAll(s: string, p: string, r: string): string
    requires |p| > 0
    decreases |s|
  {
    if StartsWith(s, p) then r + ReplaceAll(s[|p|..], p, r)
    else if |s| == 0 then ""
    else [s[0]] + ReplaceAll(s[1..], p, r)
  }

  function DigitChar(d: nat): (c: char)
    requires d < 10
    ensures IsDigit(c)
  {
    ('0' as int + d) as char
  }

  /** The decimal text of `n`, as JavaScript's number-to-string gives it for a non-negative integer. */
  function NatToString(n: nat): (s: string)
    ensures |s| > 0 && AllDigits(s)
    ensures s[0] == '0' ==> n == 0
  {
    if n < 10 then [DigitChar(n)] else NatToString(n / 10) + [DigitChar(n % 10)]
  }

  /** The number a string of decimal digits denotes. */
  function DecimalValue(s: string): nat
    requires AllDigits(s)
  {
    if s == [] then 0
    else DecimalValue(s[..|s| - 1]) * 10 + (s[|s| - 1] as int - '0' as int)
  }

  /** The decimal text of `n` reads back as `n`, so distinct radii give distinct texts. */
  lemma {:induction false} DecimalRoundTrip(n: nat)
    ensures DecimalValue(NatToString(n)) == n
  {
    if n >= 10 {
      DecimalRoundTrip(n / 10);
      var s := NatToString(n);
      assert s[..|s| - 1] == NatToString(n / 10);
    }
  }

  /** An occurrence after dropping a prefix is an occurrence in the whole string. */
  lemma {:induction false} OccursInSuffix(s: string, k: nat, p: string)
    requires k <= |s|
    requires Occurs(s[k..], p)
    ensures Occurs(s, p)
  {
    if k > 0 {
      assert s[1..][k - 1..] == s[k..];
      OccursInSuffix(s[1..], k - 1, p);
    }
  }

  /** A run of digits in front cannot be part of an occurrence of a pattern that starts with a non-digit. */
  lemma {:induction false} DigitPrefixAddsNoOccurrence(d: string, x: string, p: string)
    requires AllDigits(d)
    requires |p| > 0 && !IsDigit(p[0])
    ensures Occurs(d + x, p) == Occurs(x, p)
  {
    if d != [] {
      assert (d + x)[1..] == d[1..] + x;
      DigitPrefixAddsNoOccurrence(d[1..], x, p);
    } else {
      assert d + x == x;
    }
  }

  /**
   * Replacing a pattern by a non-empty run of digits cannot make the result
   * start with a digit-free text the input did not start with.
   */
  lemma {:induction false} ReplaceKeepsNonPrefix(t: string, p: string, r: string, q: string)
    requires |p| > 0 && |r| > 0 && AllDigits(r)
    requires |q| > 0 && NoDigits(q)
    requires !StartsWith(t, q)
    ensures !StartsWith(ReplaceAll(t, p, r), q)
    decreases |t|
  {
    var out := ReplaceAll(t, p, r);
    if StartsWith(t, p) {
      assert out[0] == r[0];
      assert !IsDigit(q[0]);
    } else if |t| > 0 {
      var rest := ReplaceAll(t[1..], p, r);
      assert out == [t[0]] + rest;
      if t[0] == q[0] && |q| <= |out| {
        assert |q| > 1 && !StartsWith(t[1..], q[1..]);
        ReplaceKeepsNonPrefix(t[1..], p, r, q[1..]);
        assert out[..|q|] == [t[0]] + rest[..|q| - 1];
      }
    }
  }

  /**
   * After replacing `p` by digits, neither `p` nor any other digit-free text
   * absent from the input occurs: the replacement cannot form or complete one.
   */
  lemma {:induction false} ReplaceLeavesNoOccurrence(s: string, p: string, r: string, q: string)
    requires |p| > 0 && |r| > 0 && AllDigits(r)
    requires |q| > 0 && NoDigits(q)
    requires q == p || !Occurs(s, q)
    ensures !Occurs(ReplaceAll(s, p, r), q)
    decreases |s|
  {
    var out := ReplaceAll(s, p, r);
    if StartsWith(s, p) {
      var s' := s[|p|..];
      if q != p && Occurs(s', q) {
        OccursInSuffix(s, |p|, q);
      }
      ReplaceLeavesNoOccurrence(s', p, r, q);
      DigitPrefixAddsNoOccurrence(r, ReplaceAll(s', p, r), q);
    } else if |s| > 0 {
      var rest := ReplaceAll(s[1..], p, r);
      assert out == [s[0]] + rest;
      ReplaceLeavesNoOccurrence(s[1..], p, r, q);
      assert out[1..] == rest;
      assert !StartsWith(s, q);
      ReplaceKeepsNonPrefix(s, p, r, q);
    }
  }

  /** A text with no occurrence of the pattern is returned unchanged. */
  lemma {:induction false} ReplaceWithoutOccurrence(s: string, p: string, r: string)
    requires |p| > 0
    requires !Occurs(s, p)
    ensures ReplaceAll(s, p, r) == s
    decreases |s|
  {
    if |s| > 0 {
      ReplaceWithoutOccurrence(s[1..], p, r);
      assert [s[0]] + s[1..] == s;
    }
  }
}
