/**
 * Prices. The store keeps prices as strings such as "$45.00" and the cart
 * total reads them with `parseFloat(price.replace('$', ''))`. The model
 * works in integer cents: a well-formed price is "$", one or more decimal
 * digits, ".", and exactly two digits.
 */
module Money {
  import opened Wrappers

  predicate IsDigit(c: char) {
    '0' <= c <= '9'
  }

  predicate AllDigits(s: string) {
    forall i :: 0 <= i < |s| ==> IsDigit(s[i])
  }

  function DigitValue(c: char): (d: nat)
    requires IsDigit(c)
    ensures d < 10
  {
    c as int - '0' as int
  }

  function DigitChar(d: nat): (c: char)
    requires d < 10
    ensures IsDigit(c) && DigitValue(c) == d
  {
    (d + '0' as int) as char
  }

  /** The number a string of decimal digits denotes, read left to right. */
  function DecimalValue(s: string): nat
    requires AllDigits(s)
  {
    if s == [] then 0 else DecimalValue(s[..|s| - 1]) * 10 + DigitValue(s[|s| - 1])
  }

  /** The shortest decimal spelling of `n`. */
  function DecimalDigits(n: nat): (s: string)
    ensures AllDigits(s) && |s| >= 1
  {
    if n < 10 then [DigitChar(n)] else DecimalDigits(n / 10) + [DigitChar(n % 10)]
  }

  lemma {:induction false} DecimalRoundTrip(n: nat)
    ensures DecimalValue(DecimalDigits(n)) == n
  {
    var s := DecimalDigits(n);
    if n >= 10 {
      assert s[..|s| - 1] == DecimalDigits(n / 10);
      DecimalRoundTrip(n / 10);
    }
  }

  /** "$" digits "." digit digit */
  predicate WellFormedPrice(s: string) {
    && |s| >= 5
    && s[0] == '$'
    && AllDigits(s[1..|s| - 3])
    && s[|s| - 3] == '.'
    && IsDigit(s[|s| - 2])
    && IsDigit(s[|s| - 1])
  }

  /** The price in cents; None for a string that is not a well-formed price. */
  function ParsePrice(s: string): (cents: Option<nat>)
    ensures cents.Some? <==> WellFormedPrice(s)
  {
    if WellFormedPrice(s) then
      Some(DecimalValue(s[1..|s| - 3]) * 100 + DigitValue(s[|s| - 2]) * 10 + DigitValue(s[|s| - 1]))
    else
      None
  }

  /** The canonical spelling of an amount of cents, e.g. 2850 as "$28.50". */
  function FormatPrice(cents: nat): (s: string)
    ensures WellFormedPrice(s)
  {
    var s := "$" + DecimalDigits(cents / 100) + "." + [DigitChar(cents % 100 / 10), DigitChar(cents % 10)];
    assert s[1..|s| - 3] == DecimalDigits(cents / 100);
    s
  }

  /** Formatting then parsing gives back the amount. */
  lemma ParseFormatRoundTrip(cents: nat)
    ensures ParsePrice(FormatPrice(cents)) == Some(cents)
  {
    var s := FormatPrice(cents);
    assert s[1..|s| - 3] == DecimalDigits(cents / 100);
    DecimalRoundTrip(cents / 100);
  }

  /** The seed catalog's prices, and strings that are not prices. */
  lemma ParsePriceExamples()
    ensures ParsePrice("$45.00") == Some(4500)
    ensures ParsePrice("$28.50") == Some(2850)
    ensures ParsePrice("$120.00") == Some(12000)
    ensures ParsePrice("45.00") == None
    ensures ParsePrice("$45") == None
  {
    assert FormatPrice(4500) == "$45.00";
    ParseFormatRoundTrip(4500);
    assert FormatPrice(2850) == "$28.50";
    ParseFormatRoundTrip(2850);
    assert FormatPrice(12000) == "$120.00";
    ParseFormatRoundTrip(12000);
  }
}
