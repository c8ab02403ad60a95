/**
 * The values an options table can hold, and the string that JavaScript's `+`
 * appends when such a value is concatenated onto a string.
 */
module JsValues {
  import opened Wrappers

  /** A primitive JavaScript value. Numbers are restricted to integers. */
  datatype Value = Num(n: int) | Str(s: string) | Bool(b: bool) | Null | Undefined

  predicate IsDigit(c: char) {
    '0' <= c <= '9'
  }

  predicate AllDigits(s: string) {
    forall i :: 0 <= i < |s| ==> IsDigit(s[i])
  }

  function DigitChar(d: nat): (c: char)
    requires d < 10
    ensures IsDigit(c) && c as int - '0' as int == d
  {
    ('0' as int + d) as char
  }

  /** The decimal digits of `n`, most significant first, without leading zeros. */
  function NatToDecimal(n: nat): (s: string)
    decreases n
  {
    if n < 10 then [DigitChar(n)] else NatToDecimal(n / 10) + [DigitChar(n % 10)]
  }

  /** The number that a string of decimal digits denotes. */
  function DecimalValue(s: string): nat
    requires AllDigits(s)
  {
    if s == [] then 0
    else 10 * DecimalValue(s[..|s| - 1]) + (s[|s| - 1] as int - '0' as int)
  }

  /** How JavaScript prints an integer-valued number: an optional minus sign, then its decimal digits. */
  function IntToDecimal(n: int): string {
    if n < 0 then "-" + NatToDecimal(-n) else NatToDecimal(n)
  }

  /** Reads back an optionally signed decimal integer; anything else is rejected. */
  function ParseInt(s: string): Option<int> {
    if |s| > 0 && s[0] == '-' then
      if |s| > 1 && AllDigits(s[1..]) then Some(-(DecimalValue(s[1..]) as int)) else None
    else if |s| > 0 && AllDigits(s) then Some(DecimalValue(s) as int)
    else None
  }

  lemma {:induction false} NatToDecimalDigits(n: nat)
    ensures |NatToDecimal(n)| > 0 && AllDigits(NatToDecimal(n))
    ensures DecimalValue(NatToDecimal(n)) == n
    decreases n
  {
    var s := NatToDecimal(n);
    if n >= 10 {
      NatToDecimalDigits(n / 10);
      assert s[..|s| - 1] == NatToDecimal(n / 10);
    }
  }

  /** Printing an integer and reading it back gives the same integer. */
  lemma IntToDecimalRoundTrip(n: int)
    ensures ParseInt(IntToDecimal(n)) == Some(n)
  {
    if n < 0 {
      NatToDecimalDigits(-n);
      assert IntToDecimal(n)[1..] == NatToDecimal(-n);
    } else {
      NatToDecimalDigits(n);
    }
  }

  /** Distinct integers print differently. */
  lemma IntToDecimalInjective(m: int, n: int)
    requires IntToDecimal(m) == IntToDecimal(n)
    ensures m == n
  {
    IntToDecimalRoundTrip(m);
    IntToDecimalRoundTrip(n);
  }

  /**
   * The text that `"..." + v` appends for the value `v`: an integer in decimal,
   * a string as itself, and the literal words for booleans, null and undefined.
   * A printed number reads back as that number and never contains '/'.
   */
  function ToJsString(v: Value): (r: string)
    ensures v.Num? ==> ParseInt(r) == Some(v.n)
    ensures v.Num? ==> '/' !in r
  {
    match v
    case Num(n) =>
      IntToDecimalRoundTrip(n);
      NatToDecimalDigits(if n < 0 then -n else n);
      assert forall i :: 0 <= i < |IntToDecimal(n)| ==> IntToDecimal(n)[i] == '-' || IsDigit(IntToDecimal(n)[i]);
      IntToDecimal(n)
    case Str(s) => s
    case Bool(b) => if b then "true" else "false"
    case Null => "null"
    case Undefined => "undefined"
  }
}
