/** The card price as text in the settings, and as an amount when a sale is recorded. */
module PriceText {
  import opened Prelude
  import opened Rounding
  import opened Text
  import opened Amounts

  datatype PriceError = NotAnAmount | OutOfRange

  const MAX_PRICE := 1000.0

  function WithPoint(s: string): string { Trim(Replace(s, ',', '.')) }

  /** A whole number of euros without decimals, anything else with two. */
  function Canonical(cents: nat): string {
    if cents % 100 == 0 then Digits(cents / 100) else Digits(cents / 100) + ['.'] + Cents(cents)
  }

  function NormalizePaymentAmount(s: string): Result<string, PriceError> {
    var t := WithPoint(s);
    if t == "" then Ok("")
    else
      var v := ParseFloat(t);
      if v.None? then Err(NotAnAmount)
      else if v.value < 0.0 || v.value > MAX_PRICE then Err(OutOfRange)
      else Ok(Canonical(Round(v.value * 100.0)))
  }

  function ParsePaymentEUR(s: string): real {
    var t := WithPoint(s);
    if t == "" then 0.0
    else
      var v := ParseFloat(t);
      if v.None? || v.value < 0.0 then 0.0 else v.value
  }

  predicate PlainText(s: string) { s != "" && IsDigit(s[0]) && IsDigit(s[|s| - 1]) && ',' !in s }

  lemma PlainIsKept(s: string)
    requires PlainText(s)
    ensures WithPoint(s) == s
  {
    assert Replace(s, ',', '.') == s;
  }

  lemma CanonicalIsPlain(cents: nat)
    ensures PlainText(Canonical(cents)) && ParseFloat(Canonical(cents)) == Some(Eur(cents))
  {
    hide ParsePlain, Digits, Cents;
    var s := Canonical(cents);
    assert s[0] == Digits(cents / 100)[0];
    PlainCents(cents);
    WholePlain(cents / 100);
    if cents % 100 == 0 {
      assert (cents / 100) as real == Eur(cents);
    } else {
      assert s[|s| - 1] == Cents(cents)[1];
    }
  }

  /** The stored text of a price in range is a fixed point and reads as that price. */
  lemma CanonicalRoundTrip(cents: nat)
    requires cents <= 100000
    ensures NormalizePaymentAmount(Canonical(cents)) == Ok(Canonical(cents))
      && ParsePaymentEUR(Canonical(cents)) == Eur(cents)
  {
    CanonicalIsPlain(cents);
    PlainIsKept(Canonical(cents));
    InRange(cents);
    hide ParseFloat, Canonical, WithPoint, Round;
  }

  /** A decimal comma does as well as a point, also for whole euros. */
  lemma CommaRoundTrip(cents: nat)
    requires cents <= 100000
    ensures var s := Digits(cents / 100) + [','] + Cents(cents);
      NormalizePaymentAmount(s) == Ok(Canonical(cents)) && ParsePaymentEUR(s) == Eur(cents)
  {
    hide ParsePlain, Digits, Cents, Canonical, Round;
    var a, b := Digits(cents / 100), Cents(cents);
    ReplaceOnly(a, b);
    PlainCents(cents);
    InRange(cents);
    var point := a + ['.'] + b;
    assert point[0] == a[0] && point[|point| - 1] == b[1];
    hide Replace;
  }

  lemma InRange(cents: nat)
    requires cents <= 100000
    ensures 0.0 <= Eur(cents) <= MAX_PRICE && Round(Eur(cents) * 100.0) == cents
  {
    assert Eur(cents) * 100.0 == cents as real;
    RoundWhole(cents);
  }

  /** For every accepted text: the stored text is a fixed point, and reads as the entered amount rounded to cents. */
  lemma NormalisedPrice(s: string)
    requires NormalizePaymentAmount(s).Ok?
    ensures var stored := NormalizePaymentAmount(s).value;
      NormalizePaymentAmount(stored) == Ok(stored) && ParsePaymentEUR(stored) == RoundEUR(ParsePaymentEUR(s))
  {
    hide ParseFloat, Canonical, WithPoint, Round, RoundEUR, Trim, Replace, NormalizePaymentAmount, ParsePaymentEUR;
    NoPrice();
    Accepted(s);
    if WithPoint(s) != "" {
      var v := ParseFloat(WithPoint(s)).value;
      RoundedWithin(v);
      CanonicalRoundTrip(Round(v * 100.0));
    }
  }

  lemma Accepted(s: string)
    requires NormalizePaymentAmount(s).Ok?
    ensures WithPoint(s) == "" ==> NormalizePaymentAmount(s) == Ok("") && ParsePaymentEUR(s) == 0.0
    ensures WithPoint(s) != "" ==> ParseFloat(WithPoint(s)).Some? && 0.0 <= ParseFloat(WithPoint(s)).value <= MAX_PRICE
    ensures WithPoint(s) != "" ==> ParsePaymentEUR(s) == ParseFloat(WithPoint(s)).value
    ensures WithPoint(s) != "" && Round(ParseFloat(WithPoint(s)).value * 100.0) >= 0 ==>
      NormalizePaymentAmount(s) == Ok(Canonical(Round(ParseFloat(WithPoint(s)).value * 100.0)))
  {
    hide ParseFloat, WithPoint, Canonical, Round;
  }

  /** Every text that reads as an amount from 0 to 1000 euro is accepted, and so is no text at all; what is no amount is
      told from what is out of range. */
  lemma AcceptedExactly(s: string)
    ensures var t, r := WithPoint(s), NormalizePaymentAmount(s);
      && (r.Ok? <==> t == "" || (ParseFloat(t).Some? && 0.0 <= ParseFloat(t).value <= 1000.0))
      && (r == Err(NotAnAmount) <==> t != "" && ParseFloat(t).None?)
  {
    hide ParseFloat, WithPoint, Canonical, Round;
  }

  lemma NoPrice()
    ensures WithPoint("") == "" && NormalizePaymentAmount("") == Ok("") && ParsePaymentEUR("") == 0.0
      && RoundEUR(0.0) == 0.0
  {
    assert Replace("", ',', '.') == "";
    assert Trim("") == "";
  }

  lemma RoundedWithin(v: real)
    requires 0.0 <= v <= MAX_PRICE
    ensures 0 <= Round(v * 100.0) <= 100000
    ensures RoundEUR(v) == Eur(Round(v * 100.0))
  {
    assert v * 100.0 <= 100000.0;
  }
}
