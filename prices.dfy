/** Prices in integer cents as the restaurant views print them: `(cents / 100).toFixed(2) + ' €'`
    (src/routes/restaurant/dashboard.tsx and src/components/restaurant/OrderDetails.tsx define
    the same `formatPrice`). For a whole number of cents the division and the two-decimal
    rendering are exact, so the text is the sign, the euros, a point, two digits of cents and
    the euro sign. */
module Prices {
  import opened Wrappers
  import opened Text

  const EuroSuffix: string := " €"

  function Magnitude(cents: int): (a: nat)
    ensures a == cents || a == -cents
  {
    if cents < 0 then -cents else cents
  }

  /** `formatPrice(cents)`. */
  function FormatPrice(cents: int): (s: string)
    ensures |s| >= 6 && s[|s| - 2..] == EuroSuffix
    ensures s[0] == '-' <==> cents < 0
    ensures s[|s| - 5] == '.'
  {
    var a := Magnitude(cents);
    var whole := NatToString(a / 100);
    var sign := if cents < 0 then "-" else "";
    var s := sign + whole + "." + [DigitChar(a % 100 / 10), DigitChar(a % 10)] + EuroSuffix;
    assert s[|s| - 5] == '.';
    assert cents >= 0 ==> s[0] == whole[0];
    s
  }

  predicate AllDigits(s: string)
  {
    forall i :: 0 <= i < |s| ==> IsDigit(s[i])
  }

  /** Reading a printed price back into cents; `None` for text of any other shape. */
  function ParsePrice(s: string): (r: Option<int>)
  {
    if |s| < 6 || s[|s| - 2..] != EuroSuffix then None
    else
      var body := s[..|s| - 2];
      var negative := body[0] == '-';
      var rest := if negative then body[1..] else body;
      if |rest| < 4 || rest[|rest| - 3] != '.' then None
      else
        var whole := rest[..|rest| - 3];
        var d1, d2 := rest[|rest| - 2], rest[|rest| - 1];
        if !AllDigits(whole) || !IsDigit(d1) || !IsDigit(d2) then None
        else
          var v := DigitsValue(whole) * 100 + DigitValue(d1) * 10 + DigitValue(d2);
          Some(if negative then -v else v)
  }

  /** Every printed price reads back as the cents it was printed from, so two different
      amounts never print alike. */
  lemma ParseFormatPrice(cents: int)
    ensures ParsePrice(FormatPrice(cents)) == Some(cents)
  {
    var a := Magnitude(cents);
    var whole := NatToString(a / 100);
    var sign := if cents < 0 then "-" else "";
    var d1, d2 := DigitChar(a % 100 / 10), DigitChar(a % 10);
    var s := FormatPrice(cents);
    assert s == sign + whole + "." + [d1, d2] + EuroSuffix;
    var body := s[..|s| - 2];
    assert body == sign + whole + "." + [d1, d2];
    var rest := if body[0] == '-' then body[1..] else body;
    assert rest == whole + "." + [d1, d2] by {
      if cents < 0 {
        assert body[0] == '-';
      } else {
        assert body[0] == whole[0];
      }
    }
    assert rest[..|rest| - 3] == whole;
    assert rest[|rest| - 2] == d1 && rest[|rest| - 1] == d2;
    NatToStringValue(a / 100);
    assert a / 100 * 100 + a % 100 / 10 * 10 + a % 10 == a;
  }

  lemma FormatPriceInjective(a: int, b: int)
    requires FormatPrice(a) == FormatPrice(b)
    ensures a == b
  {
    ParseFormatPrice(a);
    ParseFormatPrice(b);
  }

  /** For example 1250 cents print as "12.50 €" and 5 cents as "0.05 €". */
  lemma FormatPriceExamples()
    ensures FormatPrice(1250) == "12.50 €"
    ensures FormatPrice(5) == "0.05 €"
  {
    assert NatToString(12) == "12";
  }
}
