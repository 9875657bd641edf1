/**
 * How Kotlin renders an `Int` or an `Int?` inside a string template such as
 * `"Unexpected state: $state"`: base ten, a leading '-' for negative values,
 * and the word "null" for a null reference. A parser is given as the inverse
 * of the rendering, so that the text a tile shows can be read back.
 */
module KotlinText {
  import opened Wrappers

  predicate IsDigit(c: char) {
    '0' <= c <= '9'
  }

  predicate AllDigits(s: string) {
    forall i :: 0 <= i < |s| ==> IsDigit(s[i])
  }

  predicate IsDecimal(s: string) {
    |s| > 0 && AllDigits(s)
  }

  function DigitChar(d: nat): (c: char)
    requires d < 10
    ensures IsDigit(c) && c as int - '0' as int == d
  {
    ('0' as int + d) as char
  }

  function DigitValue(c: char): (d: nat)
    requires IsDigit(c)
    ensures d < 10 && DigitChar(d) == c
  {
    c as int - '0' as int
  }

  /** The decimal digits of `n`, most significant first, with no leading zero. */
  function DecimalOf(n: nat): (r: string)
    ensures IsDecimal(r)
    ensures r[0] == '0' <==> n == 0
    decreases n
  {
    if n < 10 then [DigitChar(n)] else DecimalOf(n / 10) + [DigitChar(n % 10)]
  }

  /** Kotlin's `Int.toString()`. */
  function IntToString(n: int): (r: string)
    ensures |r| > 0
    ensures r[0] == '-' <==> n < 0
    ensures IsDecimal(if n < 0 then r[1..] else r)
  {
    if n < 0 then "-" + DecimalOf(-n) else DecimalOf(n)
  }

  /** What a string template prints for a value of type `Int?`. */
  function NullableToString(o: Option<int>): (r: string)
    ensures r == "null" <==> o.None?
    ensures |r| > 0
    ensures o.Some? ==> r[0] == '-' || IsDigit(r[0])
  {
    match o
    case None => "null"
    case Some(n) => IntToString(n)
  }

  /** The value of a string of decimal digits. */
  function ParseDecimal(s: string): nat
    requires AllDigits(s)
  {
    if s == [] then 0 else 10 * ParseDecimal(s[..|s| - 1]) + DigitValue(s[|s| - 1])
  }

  /** Reads back an optionally signed decimal integer; None for any other text. */
  function ParseInt(s: string): Option<int> {
    if |s| > 0 && s[0] == '-' then
      if IsDecimal(s[1..]) then var magnitude: int := ParseDecimal(s[1..]); Some(-magnitude) else None
    else if IsDecimal(s) then Some(ParseDecimal(s))
    else None
  }

  lemma {:induction false} ParseDecimalOfDecimal(n: nat)
    ensures ParseDecimal(DecimalOf(n)) == n
    decreases n
  {
    if n >= 10 {
      var s := DecimalOf(n);
      assert s[..|s| - 1] == DecimalOf(n / 10);
      ParseDecimalOfDecimal(n / 10);
    }
  }

  /** Rendering an integer loses nothing: the text parses back to the same value. */
  lemma IntToStringRoundTrip(n: int)
    ensures ParseInt(IntToString(n)) == Some(n)
  {
    if n < 0 {
      assert IntToString(n)[1..] == DecimalOf(-n);
      ParseDecimalOfDecimal(-n);
    } else {
      ParseDecimalOfDecimal(n);
    }
  }
}
