/**
 * The parts of Go's `strconv` package and of its 64-bit `int` that the
 * request-parsing core depends on: `strconv.Atoi`, `strconv.ParseBool` and
 * two's-complement wrap-around of `int` arithmetic.
 */
module Strconv {
  import opened Common
  import opened Strings

  const MinInt64: int := -0x8000_0000_0000_0000
  const MaxInt64: int := 0x7FFF_FFFF_FFFF_FFFF
  const TwoTo64: int := 0x1_0000_0000_0000_0000

  predicate InInt64(x: int) { MinInt64 <= x <= MaxInt64 }

  /** The value Go's 64-bit `int` holds after an arithmetic result `x`. */
  function WrapInt64(x: int): (r: int)
    ensures InInt64(r)
    ensures (r - x) % TwoTo64 == 0
    ensures InInt64(x) ==> r == x
  {
    var m := x % TwoTo64;
    if m > MaxInt64 then m - TwoTo64 else m
  }

  /**
   * `strconv.Atoi`: an optional `+` or `-` followed by one or more decimal
   * digits, whose value fits in 64 bits; anything else is an error.
   */
  function Atoi(s: string): (r: Option<int>)
    ensures r.Some? ==> |s| > 0 && InInt64(r.value)
    ensures r.Some? && r.value < 0 ==> s[0] == '-'
  {
    var neg := |s| > 0 && s[0] == '-';
    var body := if |s| > 0 && (s[0] == '+' || s[0] == '-') then s[1..] else s;
    if |body| == 0 || !AllDigits(body) then None
    else
      var magnitude: int := DigitsValue(body);
      var v := if neg then -magnitude else magnitude;
      if InInt64(v) then Some(v) else None
  }

  /** Every 64-bit integer, rendered in decimal, parses back to itself. */
  lemma AtoiRoundTrip(n: int)
    requires InInt64(n)
    ensures n >= 0 ==> Atoi(NatToString(n)) == Some(n)
    ensures n < 0 ==> Atoi("-" + NatToString(-n)) == Some(n)
  {
    if n >= 0 {
      var s := NatToString(n);
      DigitsValueOfNatToString(n);
      assert IsDigit(s[0]);
    } else {
      var d := NatToString(-n);
      var s := "-" + d;
      DigitsValueOfNatToString(-n);
      assert s[1..] == d;
    }
  }

  /** Atoi accepts only strings of sign and digits, so never white space. */
  lemma AtoiRejectsSpace(s: string)
    requires Atoi(s).Some?
    ensures |s| > 0 && NoSpace(s)
  {
    var body := if s[0] == '+' || s[0] == '-' then s[1..] else s;
    forall i | 0 <= i < |s| ensures !IsSpace(s[i]) {
      if s[0] == '+' || s[0] == '-' {
        if i > 0 { assert s[i] == body[i - 1]; }
      } else {
        assert IsDigit(s[i]);
      }
    }
  }

  /**
   * `strconv.ParseBool`: the twelve spellings Go accepts, each of one to five
   * characters; the first character tells true ("1", "t", "T") from false.
   */
  function ParseBool(s: string): (r: Option<bool>)
    ensures r.Some? ==> 1 <= |s| <= 5
    ensures r.Some? ==> (r.value <==> s[0] == '1' || s[0] == 't' || s[0] == 'T')
  {
    if s == "1" || s == "t" || s == "T" || s == "TRUE" || s == "true" || s == "True" then Some(true)
    else if s == "0" || s == "f" || s == "F" || s == "FALSE" || s == "false" || s == "False" then Some(false)
    else None
  }

  /** `strconv.FormatBool`. */
  function FormatBool(b: bool): string
  {
    if b then "true" else "false"
  }

  lemma ParseBoolRoundTrip(b: bool)
    ensures ParseBool(FormatBool(b)) == Some(b)
  {
  }
}
