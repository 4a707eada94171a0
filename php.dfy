/** The few pieces of PHP's runtime behaviour that the plugin's decisions rest on:
    truthiness of strings, `strpos`, and the decimal rendering of an integer in
    string concatenation. */
module Php {

  /** A PHP value that may be `false`/`null` (an unset environment variable, a
      failed `realpath`, an unset field). */
  datatype Option<+T> = None | Some(value: T) {
    /** The value, or `default` when absent. */
    function GetOr(default: T): T {
      match this
      case Some(v) => v
      case None => default
    }
  }

  /** PHP truthiness of a string: "" and "0" are falsy, every other string is truthy. */
  predicate Truthy(s: string) {
    s != "" && s != "0"
  }

  /** Truthiness of a string that may also be `false`. */
  predicate TruthyOpt(s: Option<string>) {
    s.Some? && Truthy(s.value)
  }

  /** `needle` occurs in `haystack` at offset `k`. */
  predicate OccursAt(haystack: string, needle: string, k: int) {
    0 <= k && k + |needle| <= |haystack| && haystack[k..k + |needle|] == needle
  }

  /** Dropping the first character shifts every occurrence one place to the left. */
  lemma ShiftOccurrences(haystack: string, needle: string)
    requires |haystack| > 0
    ensures forall k :: 1 <= k ==> (OccursAt(haystack, needle, k) <==> OccursAt(haystack[1..], needle, k - 1))
  {
    forall k | 1 <= k
      ensures OccursAt(haystack, needle, k) <==> OccursAt(haystack[1..], needle, k - 1)
    {
      if k + |needle| <= |haystack| {
        assert haystack[1..][k - 1..k - 1 + |needle|] == haystack[k..k + |needle|];
      }
    }
  }

  /** PHP's `strpos`: the offset of the first occurrence of `needle`, or None for `false`. */
  function StrPos(haystack: string, needle: string): (r: Option<nat>)
    ensures r.Some? ==> OccursAt(haystack, needle, r.value)
    ensures r.Some? ==> forall k :: 0 <= k < r.value ==> !OccursAt(haystack, needle, k)
    ensures r.None? ==> forall k :: !OccursAt(haystack, needle, k)
    decreases |haystack|
  {
    if |haystack| < |needle| then None
    else if haystack[..|needle|] == needle then Some(0)
    else
      ShiftOccurrences(haystack, needle);
      match StrPos(haystack[1..], needle)
      case None => None
      case Some(k) => Some(k + 1)
  }

  /** A needle whose first character does not occur in `prefix` is first found right after it. */
  lemma {:induction false} FirstOccurrenceAfter(prefix: string, needle: string, rest: string)
    requires |needle| > 0 && needle[0] !in prefix
    ensures StrPos(prefix + needle + rest, needle) == Some(|prefix|)
  {
    var h := prefix + needle + rest;
    assert h[|prefix|..|prefix| + |needle|] == needle;
    assert OccursAt(h, needle, |prefix|);
    forall k | 0 <= k < |prefix|
      ensures !OccursAt(h, needle, k)
    {
      assert h[k] == prefix[k];
      if k + |needle| <= |h| {
        assert h[k..k + |needle|][0] == h[k];
      }
    }
  }

  /** A needle whose first character does not occur in the haystack is never found. */
  lemma NotFoundWithoutFirstChar(haystack: string, needle: string)
    requires |needle| > 0 && needle[0] !in haystack
    ensures StrPos(haystack, needle) == None
  {
    forall k
      ensures !OccursAt(haystack, needle, k)
    {
      if 0 <= k && k + |needle| <= |haystack| {
        assert haystack[k..k + |needle|][0] == haystack[k];
      }
    }
  }

  predicate IsDigit(c: char) {
    '0' <= c <= '9'
  }

  predicate AllDigits(s: string) {
    forall i :: 0 <= i < |s| ==> IsDigit(s[i])
  }

  function DigitChar(d: nat): (c: char)
    requires d < 10
    ensures IsDigit(c) && (c as int) - ('0' as int) == d
  {
    ('0' as int + d) as char
  }

  /** The decimal text PHP produces when a non-negative integer is concatenated to a string. */
  function NatToString(n: nat): (s: string)
    ensures |s| > 0 && AllDigits(s)
    ensures n == 0 ==> s == "0"
    ensures n > 0 ==> s[0] != '0'
  {
    if n < 10 then [DigitChar(n)] else NatToString(n / 10) + [DigitChar(n % 10)]
  }

  /** The number a string of decimal digits denotes. */
  function DigitsValue(s: string): nat
    requires AllDigits(s)
  {
    if s == [] then 0
    else DigitsValue(s[..|s| - 1]) * 10 + ((s[|s| - 1] as int) - ('0' as int))
  }

  /** The decimal text of a number reads back as that number. */
  lemma {:induction false} NatToStringRoundTrip(n: nat)
    ensures DigitsValue(NatToString(n)) == n
  {
    var s := NatToString(n);
    if n >= 10 {
      NatToStringRoundTrip(n / 10);
      assert s[..|s| - 1] == NatToString(n / 10);
    }
  }
}
