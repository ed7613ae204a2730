/** Money: exact integers in the currency's own minor units, and the decimal spelling handed to the tool. */
module Money {
  import opened Wrappers
  import opened Texts
  import opened Json

  datatype Amount = Amount(minor: int, currency: string)

  /** ISO 4217 minor-unit exponents. */
  function Exponents(): map<string, nat> { map[
    "AUD" := 2, "BHD" := 3, "CAD" := 2, "CHF" := 2, "CZK" := 2, "DKK" := 2, "EUR" := 2, "GBP" := 2,
    "HUF" := 2, "INR" := 2, "ISK" := 0, "JOD" := 3, "JPY" := 0, "KRW" := 0, "KWD" := 3, "NOK" := 2,
    "OMR" := 3, "PLN" := 2, "SEK" := 2, "SGD" := 2, "TND" := 3, "USD" := 2] }

  const MAX_WHOLE_DIGITS: nat := 15
  const WHOLE_LIMIT: nat := 1000000000000000
  const MAX_FRACTION_DIGITS: nat := 6

  datatype Decimal = Decimal(whole: string, fraction: string) {
    predicate Valid() {
      && AllDigits(whole) && NoLeadingZero(whole) && |whole| <= MAX_WHOLE_DIGITS
      && AllDigits(fraction) && |fraction| <= MAX_FRACTION_DIGITS
    }
  }

  /** The amount grammar: no sign, no leading zero, at most fifteen whole and one to six fraction digits. */
  function ParseDecimal(s: string): (r: Option<Decimal>)
    ensures r.Some? ==> r.value.Valid()
  {
    var parts := Split(s, '.');
    if |parts| > 2 || (|parts| == 2 && parts[1] == "") then None
    else
      var d := Decimal(parts[0], if |parts| == 2 then parts[1] else "");
      if d.Valid() then Some(d) else None
  }

  /** Python's ljust with zeros. */
  function PadRight(f: string, width: nat): (r: string)
    requires AllDigits(f) && |f| <= width
    ensures AllDigits(r) && |r| == width
  {
    f + Zeros(width - |f|)
  }

  function MinorUnits(d: Decimal, exponent: nat): nat
    requires d.Valid() && |d.fraction| <= exponent
  {
    Number(d.whole) * Pow10(exponent) + Number(PadRight(d.fraction, exponent))
  }

  predicate IsCurrencyCode(s: string) {
    |s| == 3 && IsUpper(s[0]) && IsUpper(s[1]) && IsUpper(s[2])
  }

  function CanonicalMoney(value: Json, currencies: seq<string>, minMinor: int, maxMinor: int): (r: Result<Amount>)
  {
    if !value.JObj? || value.members.Keys != {"amount", "currency"} then Err("expected_amount_and_currency")
    else
      var amount, currency := value.members["amount"], value.members["currency"];
      if !currency.JStr? || !IsCurrencyCode(currency.s) then Err("bad_currency")
      else if currency.s !in Exponents() then Err("unknown_currency")
      else if currency.s !in currencies then Err("currency_not_allowed")
      else if !amount.JStr? then Err("amount_must_be_a_decimal_string")
      else match ParseDecimal(amount.s)
        case None => Err("bad_amount")
        case Some(d) =>
          if |d.fraction| > Exponents()[currency.s] then Err("too_many_fraction_digits")
          else
            var minor := MinorUnits(d, Exponents()[currency.s]);
            if minMinor <= minor <= maxMinor then Ok(Amount(minor, currency.s)) else Err("out_of_bounds")
  }

  function Padded(n: nat, width: nat): string {
    var d := Digits(n);
    if |d| < width then Zeros(width - |d|) + d else d
  }

  function DecimalText(minor: nat, currency: string): string
    requires currency in Exponents()
  {
    var e := Exponents()[currency];
    if e == 0 then Digits(minor) else Digits(minor / Pow10(e)) + "." + Padded(minor % Pow10(e), e)
  }

  function WireMoney(minor: nat, currency: string): Json
    requires currency in Exponents()
  {
    JObj(map["amount" := JStr(DecimalText(minor, currency)), "currency" := JStr(currency)])
  }

  // ---- the decimal a spelling denotes, in millionths and independent of any currency ----

  function Millionths(d: Decimal): nat
    requires d.Valid()
  {
    Number(d.whole) * 1000000 + Number(d.fraction) * Pow10(6 - |d.fraction|)
  }

  lemma ExponentsSmall(currency: string)
    requires currency in Exponents()
    ensures Exponents()[currency] <= 3
  {
  }

  lemma {:induction false} Pow10Add(m: nat, n: nat)
    ensures Pow10(m) * Pow10(n) == Pow10(m + n)
  {
    if m > 0 {
      Pow10Add(m - 1, n);
      calc {
        Pow10(m) * Pow10(n);
        10 * Pow10(m - 1) * Pow10(n);
        10 * (Pow10(m - 1) * Pow10(n));
      }
    }
  }

  lemma PaddedFraction(f: string, e: nat)
    requires AllDigits(f) && |f| <= e
    ensures Number(PadRight(f, e)) == Number(f) * Pow10(e - |f|)
    ensures Number(f) * Pow10(e - |f|) < Pow10(e)
  {
    NumberConcat(f, Zeros(e - |f|));
    NumberZeros(e - |f|);
    NumberBound(PadRight(f, e));
  }

  /** The minor amount, scaled to millionths, is the decimal the text denotes. */
  lemma MinorIsDecimal(d: Decimal, e: nat)
    requires d.Valid() && |d.fraction| <= e <= 6
    ensures MinorUnits(d, e) * Pow10(6 - e) == Millionths(d)
  {
    var k := e - |d.fraction|;
    PaddedFraction(d.fraction, e);
    Pow10Add(e, 6 - e);
    Pow10Add(k, 6 - e);
    assert Pow10(6) == 1000000;
    Scale(Number(d.whole), Pow10(e), Number(d.fraction), Pow10(k), Pow10(6 - e));
  }

  lemma Scale(w: nat, p: nat, f: nat, k: nat, s: nat)
    ensures (w * p + f * k) * s == w * (p * s) + f * (k * s)
  {
    assert (w * p + f * k) * s == w * p * s + f * k * s;
    assert w * p * s == w * (p * s);
    assert f * k * s == f * (k * s);
  }

  lemma Cancel(x: nat, y: nat, p: nat)
    requires p > 0
    ensures x * p == y * p <==> x == y
  {
    assert x < y ==> x * p < y * p;
    assert y < x ==> y * p < x * p;
  }

  lemma SameMinorIffSameDecimal(a: Decimal, b: Decimal, e: nat)
    requires a.Valid() && b.Valid() && |a.fraction| <= e && |b.fraction| <= e && e <= 6
    ensures MinorUnits(a, e) == MinorUnits(b, e) <==> Millionths(a) == Millionths(b)
  {
    MinorIsDecimal(a, e);
    MinorIsDecimal(b, e);
    Cancel(MinorUnits(a, e), MinorUnits(b, e), Pow10(6 - e));
  }

  /** The decimal an accepted argument spells. */
  function Spelled(value: Json, currencies: seq<string>, minMinor: int, maxMinor: int): (d: Decimal)
    requires CanonicalMoney(value, currencies, minMinor, maxMinor).Ok?
    ensures d.Valid()
  {
    ParseDecimal(value.members["amount"].s).value
  }

  /** Two accepted spellings in one currency give one minor amount exactly when they denote one decimal. */
  lemma SameAmountIffSameDecimal(v: Json, w: Json, currencies: seq<string>, lo: int, hi: int)
    requires CanonicalMoney(v, currencies, lo, hi).Ok? && CanonicalMoney(w, currencies, lo, hi).Ok?
    requires CanonicalMoney(v, currencies, lo, hi).value.currency == CanonicalMoney(w, currencies, lo, hi).value.currency
    ensures CanonicalMoney(v, currencies, lo, hi) == CanonicalMoney(w, currencies, lo, hi)
            <==> Millionths(Spelled(v, currencies, lo, hi)) == Millionths(Spelled(w, currencies, lo, hi))
  {
    var currency := CanonicalMoney(v, currencies, lo, hi).value.currency;
    ExponentsSmall(currency);
    SameMinorIffSameDecimal(Spelled(v, currencies, lo, hi), Spelled(w, currencies, lo, hi), Exponents()[currency]);
  }

  lemma DivideAndRemainder(n: nat, p: nat)
    requires p > 0
    ensures 0 <= n / p && 0 <= n % p < p && (n / p) * p + n % p == n
  {
  }

  lemma WholeDigits(w: string)
    requires AllDigits(w) && NoLeadingZero(w)
    ensures |w| <= MAX_WHOLE_DIGITS <==> Number(w) < WHOLE_LIMIT
  {
    assert Pow10(5) == 100000;
    assert Pow10(10) == 10000000000;
    assert Pow10(15) == WHOLE_LIMIT;
    DigitCount(w, 15);
  }

  lemma MultipleBounds(k: int, p: nat)
    ensures k >= 1 ==> k * p >= p
    ensures k <= -1 ==> k * p + p <= 0
  {
  }

  lemma WholePart(w: nat, f: nat, p: nat)
    requires f < p
    ensures (w * p + f) / p == w && (w * p + f) % p == f
  {
    var n := w * p + f;
    DivideAndRemainder(n, p);
    var q := n / p;
    assert (w - q) * p == w * p - q * p;
    MultipleBounds(w - q, p);
  }

  /** Nothing outside the fifteen-digit range is ever returned. */
  lemma AcceptedRange(value: Json, currencies: seq<string>, minMinor: int, maxMinor: int)
    requires CanonicalMoney(value, currencies, minMinor, maxMinor).Ok?
    ensures var m := CanonicalMoney(value, currencies, minMinor, maxMinor).value;
      && m.currency in Exponents() && m.currency in currencies && minMinor <= m.minor <= maxMinor
      && 0 <= m.minor / Pow10(Exponents()[m.currency]) < WHOLE_LIMIT
  {
    var m := CanonicalMoney(value, currencies, minMinor, maxMinor).value;
    var d := ParseDecimal(value.members["amount"].s).value;
    var e := Exponents()[m.currency];
    PaddedFraction(d.fraction, e);
    WholePart(Number(d.whole), Number(PadRight(d.fraction, e)), Pow10(e));
    WholeDigits(d.whole);
  }

  lemma {:induction false} DigitsFree(s: string)
    requires AllDigits(s)
    ensures Free(s, '.')
  {
  }

  lemma PaddedIsNumber(n: nat, width: nat)
    requires n < Pow10(width) && width > 0
    ensures AllDigits(Padded(n, width)) && |Padded(n, width)| == width && Number(Padded(n, width)) == n
  {
    hide Digits, Number, Pow10;
    NumberOfDigits(n);
    DigitCount(Digits(n), width);
    if |Digits(n)| < width {
      var z := width - |Digits(n)|;
      NumberConcat(Zeros(z), Digits(n));
      NumberZeros(z);
      NoZeros(Pow10(|Digits(n)|));
    }
  }

  lemma NoZeros(p: nat)
    ensures 0 * p == 0
  {
  }

  lemma SplitOne(w: string)
    requires AllDigits(w)
    ensures Split(w, '.') == [w]
  {
    DigitsFree(w);
    SplitJoin([w], '.');
    assert Join([w], '.') == w;
  }

  lemma SplitTwo(w: string, f: string)
    requires AllDigits(w) && AllDigits(f)
    ensures Split(w + "." + f, '.') == [w, f]
  {
    DigitsFree(w);
    DigitsFree(f);
    SplitJoin([w, f], '.');
    assert [w, f][1..] == [f];
    assert Join([f], '.') == f;
    assert Join([w, f], '.') == w + "." + f;
  }

  lemma ParseWhole(w: string)
    requires AllDigits(w) && NoLeadingZero(w)
    ensures ParseDecimal(w) == if Number(w) < WHOLE_LIMIT then Some(Decimal(w, "")) else None
  {
    WholeDigits(w);
    SplitOne(w);
  }

  lemma ParseWholeAndFraction(w: string, f: string)
    requires AllDigits(w) && NoLeadingZero(w) && AllDigits(f) && 1 <= |f| <= 6
    ensures ParseDecimal(w + "." + f) == if Number(w) < WHOLE_LIMIT then Some(Decimal(w, f)) else None
  {
    WholeDigits(w);
    SplitTwo(w, f);
  }

  lemma MinorOfParts(d: Decimal, e: nat)
    requires d.Valid() && |d.fraction| == e
    ensures MinorUnits(d, e) == Number(d.whole) * Pow10(e) + Number(d.fraction)
  {
    assert PadRight(d.fraction, e) == d.fraction;
  }

  /** Reading the canonical spelling: the grammar accepts it exactly below 10^15 whole units. */
  lemma ParseDecimalText(minor: nat, currency: string)
    requires currency in Exponents()
    ensures var e := Exponents()[currency]; var d := ParseDecimal(DecimalText(minor, currency));
      && (d.Some? <==> minor / Pow10(e) < WHOLE_LIMIT)
      && (d.Some? ==> |d.value.fraction| == e && MinorUnits(d.value, e) == minor)
  {
    ExponentsSmall(currency);
    var e := Exponents()[currency];
    if e == 0 {
      NumberOfDigits(minor);
      ParseWhole(Digits(minor));
      assert Pow10(0) == 1 && minor / 1 == minor;
      if minor < WHOLE_LIMIT { MinorOfParts(Decimal(Digits(minor), ""), 0); }
    } else {
      var w, r := minor / Pow10(e), minor % Pow10(e);
      DivideAndRemainder(minor, Pow10(e));
      PaddedIsNumber(r, e);
      NumberOfDigits(w);
      ParseWholeAndFraction(Digits(w), Padded(r, e));
      if w < WHOLE_LIMIT { MinorOfParts(Decimal(Digits(w), Padded(r, e)), e); }
    }
  }

  lemma CurrencyCodes(currency: string)
    requires currency in Exponents()
    ensures IsCurrencyCode(currency)
  {
  }

  /** The executor's spelling reads back as the same amount exactly when it has at most fifteen whole digits. */
  lemma MoneyRoundTrip(minor: nat, currency: string, currencies: seq<string>, minMinor: int, maxMinor: int)
    requires currency in Exponents() && currency in currencies && minMinor <= minor <= maxMinor
    ensures CanonicalMoney(WireMoney(minor, currency), currencies, minMinor, maxMinor) == Ok(Amount(minor, currency))
            <==> minor / Pow10(Exponents()[currency]) < WHOLE_LIMIT
  {
    hide Exponents, DecimalText;
    ParseDecimalText(minor, currency);
    CurrencyCodes(currency);
  }

  // ---- what is accepted ----

  function DecimalSpelling(d: Decimal): string { if d.fraction == "" then d.whole else d.whole + "." + d.fraction }

  /** The grammar reads a decimal from its one spelling. */
  lemma DecimalExact(s: string, d: Decimal)
    ensures ParseDecimal(s) == Some(d) <==> d.Valid() && s == DecimalSpelling(d)
  {
    JoinSplit(s, '.');
    var parts := Split(s, '.');
    if |parts| == 2 {
      assert parts == [parts[0], parts[1]];
      JoinTwo(parts[0], parts[1]);
    } else if |parts| == 1 {
      assert parts == [parts[0]];
    }
    if d.Valid() {
      if d.fraction == "" { SplitOne(d.whole); } else { SplitTwo(d.whole, d.fraction); }
    }
  }

  lemma JoinTwo(w: string, f: string)
    ensures Join([w, f], '.') == w + "." + f
  {
    assert [w, f][1..] == [f];
  }

  /** An allowed currency and a decimal of no more places than it has, of that many minor units within the bounds. */
  predicate SpellsAmount(value: Json, d: Decimal, a: Amount, currencies: seq<string>, lo: int, hi: int) {
    && value == JObj(map["amount" := JStr(DecimalSpelling(d)), "currency" := JStr(a.currency)])
    && a.currency in Exponents() && a.currency in currencies
    && d.Valid() && |d.fraction| <= Exponents()[a.currency] <= 6
    && a.minor * Pow10(6 - Exponents()[a.currency]) == Millionths(d)
    && lo <= a.minor <= hi
  }

  lemma MinorOf(d: Decimal, e: nat, minor: int)
    requires d.Valid() && |d.fraction| <= e <= 6
    ensures minor * Pow10(6 - e) == Millionths(d) <==> minor == MinorUnits(d, e)
  {
    MinorIsDecimal(d, e);
    if minor >= 0 { Cancel(minor, MinorUnits(d, e), Pow10(6 - e)); } else { MultipleBounds(minor, Pow10(6 - e)); }
  }

  lemma MoneyRead(value: Json, currencies: seq<string>, lo: int, hi: int) returns (d: Decimal)
    requires CanonicalMoney(value, currencies, lo, hi).Ok?
    ensures SpellsAmount(value, d, CanonicalMoney(value, currencies, lo, hi).value, currencies, lo, hi)
  {
    hide ParseDecimal, Exponents, MinorUnits, DecimalSpelling, Millionths, Pow10;
    var a := CanonicalMoney(value, currencies, lo, hi).value;
    var amount := value.members["amount"].s;
    d := ParseDecimal(amount).value;
    DecimalExact(amount, d);
    ExponentsSmall(a.currency);
    MinorOf(d, Exponents()[a.currency], a.minor);
    assert value.members == map["amount" := JStr(DecimalSpelling(d)), "currency" := JStr(a.currency)];
  }

  lemma MoneyTaken(value: Json, d: Decimal, a: Amount, currencies: seq<string>, lo: int, hi: int)
    requires SpellsAmount(value, d, a, currencies, lo, hi)
    ensures CanonicalMoney(value, currencies, lo, hi) == Ok(a)
  {
    hide ParseDecimal, Exponents, MinorUnits, DecimalSpelling, Millionths, Pow10;
    DecimalExact(DecimalSpelling(d), d);
    MinorOf(d, Exponents()[a.currency], a.minor);
    CurrencyCodes(a.currency);
    assert value.members.Keys == {"amount", "currency"};
  }

  /** An amount is accepted exactly from a spelling of it. */
  lemma MoneyExact(value: Json, a: Amount, currencies: seq<string>, lo: int, hi: int)
    ensures CanonicalMoney(value, currencies, lo, hi) == Ok(a) <==> exists d :: SpellsAmount(value, d, a, currencies, lo, hi)
  {
    hide CanonicalMoney, SpellsAmount;
    if CanonicalMoney(value, currencies, lo, hi) == Ok(a) { var d := MoneyRead(value, currencies, lo, hi); }
    forall d | SpellsAmount(value, d, a, currencies, lo, hi) ensures CanonicalMoney(value, currencies, lo, hi) == Ok(a) {
      MoneyTaken(value, d, a, currencies, lo, hi);
    }
  }
}
