/**
 * Decoded JSON values, as `JSON.parse` hands them to the message handlers, and the
 * string conversion that a JavaScript template literal applies to an interpolated value.
 */
module Json {

  /** A JSON value; `Undefined` stands for a position that is missing from a parsed array. */
  datatype Value =
    | Undefined
    | Null
    | Bool(b: bool)
    | Num(n: int)
    | Str(s: string)
    | Arr(elems: seq<Value>)
    | Obj(fields: seq<(string, Value)>)

  predicate IsDigit(c: char) {
    '0' <= c <= '9'
  }

  predicate AllDigits(s: string) {
    forall i :: 0 <= i < |s| ==> IsDigit(s[i])
  }

  function DigitChar(d: nat): (c: char)
    requires d < 10
    ensures IsDigit(c) && c as int - '0' as int == d
  {
    ('0' as int + d) as char
  }

  /** The decimal spelling of a natural number, most significant digit first, without leading zeros. */
  function Decimal(n: nat): (s: string)
    ensures |s| > 0 && AllDigits(s)
    ensures n >= 10 <==> |s| > 1
    ensures |s| > 1 ==> s[0] != '0'
  {
    if n < 10 then [DigitChar(n)] else Decimal(n / 10) + [DigitChar(n % 10)]
  }

  /** The number that a string of decimal digits denotes. */
  function ParseDecimal(s: string): nat
    requires AllDigits(s)
  {
    if s == [] then 0 else ParseDecimal(s[..|s| - 1]) * 10 + (s[|s| - 1] as int - '0' as int)
  }

  /** Reading back the decimal spelling of `n` gives `n`. */
  lemma {:induction false} DecimalRoundTrip(n: nat)
    ensures ParseDecimal(Decimal(n)) == n
  {
    if n >= 10 {
      var s := Decimal(n);
      assert s[..|s| - 1] == Decimal(n / 10);
      DecimalRoundTrip(n / 10);
    }
  }

  /** Two naturals with the same decimal spelling are equal. */
  lemma DecimalInjective(m: nat, n: nat)
    requires Decimal(m) == Decimal(n)
    ensures m == n
  {
    DecimalRoundTrip(m);
    DecimalRoundTrip(n);
  }

  /** Joins strings with a separator, as `Array.prototype.join` does. */
  function Join(parts: seq<string>, sep: string): string
  {
    if |parts| == 0 then ""
    else if |parts| == 1 then parts[0]
    else parts[0] + sep + Join(parts[1..], sep)
  }

  /**
   * `${v}` for a decoded JSON value: numbers in decimal (a leading '-' when negative), strings
   * as they are, an array as its elements joined by "," (null and undefined elements as the empty
   * string), any object as "[object Object]".
   */
  function Text(v: Value): string
    decreases v, 0
  {
    match v
    case Undefined => "undefined"
    case Null => "null"
    case Bool(b) => if b then "true" else "false"
    case Num(n) => if n < 0 then "-" + Decimal(-n) else Decimal(n)
    case Str(s) => s
    case Arr(es) => Join(seq(|es|, i requires 0 <= i < |es| => ElementText(es[i])), ",")
    case Obj(_) => "[object Object]"
  }

  function ElementText(e: Value): string
    decreases e, 1
  {
    if e == Undefined || e == Null then "" else Text(e)
  }

  /** The text of a non-negative number is its decimal spelling. */
  lemma TextOfNat(n: nat)
    ensures Text(Num(n)) == Decimal(n)
  {
  }

  /** `frame[i]` of a parsed JSON array; a position past the end reads as `undefined`. */
  function Field(frame: seq<Value>, i: nat): (v: Value)
    ensures i >= |frame| ==> v == Undefined
    ensures i < |frame| ==> v == frame[i]
  {
    if i < |frame| then frame[i] else Undefined
  }
}
