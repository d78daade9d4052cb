/**
 Values shared by the loan-application model: optional fields, JavaScript
 numbers (finite or NaN), JavaScript truthiness, the values a form field can
 hold, and the decimal rendering of a non-negative integer.
 */
module Values {

  datatype Option<+T> = None | Some(value: T)

  /** A JavaScript number as the form produces it: `parseFloat` of the
      user's text, which is either a finite value or NaN. */
  datatype Number = NaN | Finite(x: real)

  /** `if (n)` on an optional number: undefined, NaN and 0 are falsy. */
  predicate NumberTruthy(n: Option<Number>)
  {
    n.Some? && n.value.Finite? && n.value.x != 0.0
  }

  /** `if (s)` on an optional string: undefined and "" are falsy. */
  predicate TextTruthy(s: Option<string>)
  {
    s.Some? && s.value != ""
  }

  /** What one key of a partial application record may hold. */
  datatype Value =
    | Undefined
    | Text(text: string)
    | Num(num: Number)
    | Flag(flag: bool)
    | TextList(items: seq<string>)
    | Date(millis: int)

  /** The decimal digit character of `d`. */
  function DigitChar(d: nat): (c: char)
    requires d < 10
    ensures '0' <= c <= '9'
    ensures c as int - '0' as int == d
  {
    (d + '0' as int) as char
  }

  /** The value of a decimal digit character. */
  function DigitValue(c: char): (d: nat)
    requires '0' <= c <= '9'
    ensures d < 10
  {
    c as int - '0' as int
  }

  /** `String(n)` for a non-negative integer: its decimal digits, most
      significant first, without leading zeros. */
  function DecimalString(n: nat): (s: string)
    ensures |s| >= 1
    ensures forall i :: 0 <= i < |s| ==> '0' <= s[i] <= '9'
    ensures |s| > 1 ==> s[0] != '0'
    decreases n
  {
    if n < 10 then [DigitChar(n)] else DecimalString(n / 10) + [DigitChar(n % 10)]
  }

  /** Reads a string of decimal digits back as a number. */
  function ParseDecimal(s: string): nat
    requires forall i :: 0 <= i < |s| ==> '0' <= s[i] <= '9'
    decreases |s|
  {
    if s == [] then 0 else ParseDecimal(s[..|s| - 1]) * 10 + DigitValue(s[|s| - 1])
  }

  /** Rendering a number and reading it back gives the number. */
  lemma {:induction false} DecimalRoundTrip(n: nat)
    ensures ParseDecimal(DecimalString(n)) == n
    decreases n
  {
    var s := DecimalString(n);
    if n >= 10 {
      DecimalRoundTrip(n / 10);
      assert s[..|s| - 1] == DecimalString(n / 10);
    }
  }
}
