/** Decimal conversion of Go's 64-bit `int`, as `strconv.Itoa` and `strconv.Atoi` do it. */
module Decimal {
  import opened Wrappers

  const MinInt64: int := -0x8000_0000_0000_0000
  const MaxInt64: int := 0x7fff_ffff_ffff_ffff

  /** Go's `int` on a 64-bit platform, also `int64`. */
  type Int64 = i: int | MinInt64 <= i <= MaxInt64

  predicate IsDigit(c: char) {
    '0' <= c <= '9'
  }

  predicate AllDigits(s: string) {
    forall i :: 0 <= i < |s| ==> IsDigit(s[i])
  }

  function DigitChar(d: nat): (c: char)
    requires d < 10
    ensures IsDigit(c)
  {
    (('0' as int) + d) as char
  }

  function DigitValue(c: char): (d: nat)
    requires IsDigit(c)
    ensures d < 10 && DigitChar(d) == c
  {
    (c as int) - ('0' as int)
  }

  /** The decimal digits of `n`, most significant first, without leading zeros. */
  function NatToDigits(n: nat): (s: string)
    ensures s != [] && AllDigits(s)
    ensures s[0] == '0' ==> n == 0
    decreases n
  {
    if n < 10 then [DigitChar(n)] else NatToDigits(n / 10) + [DigitChar(n % 10)]
  }

  /** The number a string of decimal digits denotes. */
  function DigitsToNat(s: string): nat
    requires AllDigits(s)
  {
    if s == [] then 0 else DigitsToNat(s[..|s| - 1]) * 10 + DigitValue(s[|s| - 1])
  }

  lemma {:induction false} DigitsRoundTrip(n: nat)
    ensures DigitsToNat(NatToDigits(n)) == n
    decreases n
  {
    var s := NatToDigits(n);
    if n >= 10 {
      assert s[..|s| - 1] == NatToDigits(n / 10);
      DigitsRoundTrip(n / 10);
    }
  }

  /** strconv.Itoa: a minus sign for negative numbers, then the digits. */
  function Itoa(i: int): (s: string)
    ensures i >= 0 ==> s != "" && AllDigits(s)
    ensures i < 0 ==> |s| > 1 && s[0] == '-' && AllDigits(s[1..])
    ensures s == "0" <==> i == 0
  {
    if i < 0 then "-" + NatToDigits(-i) else NatToDigits(i)
  }

  /**
   * strconv.Atoi on a 64-bit platform: an optional '+' or '-', then at least one
   * decimal digit; anything else, or a value outside int64, is an error.
   */
  function Atoi(s: string): (r: Option<Int64>)
    ensures s == "" ==> r == None
    ensures AllDigits(s) && s != "" ==> r == if DigitsToNat(s) <= MaxInt64 then Some(DigitsToNat(s)) else None
    ensures r.Some? ==> |s| > 0 && (IsDigit(s[0]) || (|s| > 1 && (s[0] == '+' || s[0] == '-') && AllDigits(s[1..])))
    ensures |s| > 1 && (s[0] == '+' || s[0] == '-') && AllDigits(s[1..]) ==>
      r == (var v: int := if s[0] == '-' then -(DigitsToNat(s[1..]) as int) else DigitsToNat(s[1..]);
            if MinInt64 <= v <= MaxInt64 then Some(v) else None)
    ensures r.Some? && |s| > 1 && s[0] == '-' ==> r.value as int == -(DigitsToNat(s[1..]) as int)
    ensures r.Some? && |s| > 1 && s[0] == '+' ==> r.value == DigitsToNat(s[1..])
  {
    var negative := |s| > 0 && s[0] == '-';
    var body := if |s| > 0 && (s[0] == '+' || s[0] == '-') then s[1..] else s;
    if body == [] || !AllDigits(body) then None
    else
      var magnitude: int := DigitsToNat(body);
      var value: int := if negative then -magnitude else magnitude;
      if MinInt64 <= value <= MaxInt64 then Some(value) else None
  }

  /** Parsing what Itoa printed gives the number back, for every int64. */
  lemma AtoiItoa(i: Int64)
    ensures Atoi(Itoa(i)) == Some(i)
  {
    if i < 0 {
      var s := "-" + NatToDigits(-(i as int));
      assert s[1..] == NatToDigits(-(i as int));
      DigitsRoundTrip(-(i as int));
    } else {
      DigitsRoundTrip(i);
    }
  }
}
