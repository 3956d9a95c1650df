/** `Money`: an immutable amount of a currency, always held at two decimals. */
module MoneyValues {
  import opened Results
  import opened Decimals
  import opened JavaInts

  /** A `java.util.Currency`, identified by its ISO 4217 code. */
  type Currency = string

  const USD: Currency := "USD"

  /** The amount is `cents / 100` at scale 2, the only scale a `Money` ever has. */
  datatype Money = Money(cents: int, currency: Currency)

  /** `Money.ZERO`, built as `new Money(BigDecimal.ZERO)`. */
  const Zero: Money := Money(0, USD)

  /** `new Money(amount, currency)`: rejects a null amount, then a null currency,
      and otherwise rounds the amount half-up to two decimals. */
  function New(amount: Option<Decimal>, currency: Option<Currency>): (r: Result<Money>)
    ensures amount.None? ==> r == Err(IllegalArgument(NullAmount))
    ensures amount.Some? && currency.None? ==> r == Err(IllegalArgument(NullCurrency))
    ensures amount.Some? && currency.Some? ==>
      && r.Ok?
      && r.value.currency == currency.value
      && IsHalfUpRounding(CentsNumerator(amount.value), CentsDenominator(amount.value), r.value.cents)
  {
    if amount.None? then Err(IllegalArgument(NullAmount))
    else if currency.None? then Err(IllegalArgument(NullCurrency))
    else Ok(Money(SetScale2(amount.value), currency.value))
  }

  /** `new Money(amount)` and `Money.of(BigDecimal)`: the same, in US dollars. */
  function Of(amount: Option<Decimal>): (r: Result<Money>)
    ensures r.Ok? <==> amount.Some?
    ensures r.Err? ==> r.error == IllegalArgument(NullAmount)
    ensures r.Ok? ==>
      && r.value.currency == USD
      && IsHalfUpRounding(CentsNumerator(amount.value), CentsDenominator(amount.value), r.value.cents)
  {
    New(amount, Some(USD))
  }

  /** `Money.ZERO` is 0.00 US dollars, as the constructor makes it from `BigDecimal.ZERO`. */
  lemma ZeroIsConstructed()
    ensures New(Some(Decimal(0, 0)), Some(USD)) == Ok(Zero)
    ensures Zero.cents == 0 && Zero.currency == USD
  {
  }

  /** A value already at scale 2 passes through the constructor unchanged. */
  lemma ConstructAtScale2(cents: int, c: Currency)
    ensures New(Some(Decimal(cents, 2)), Some(c)) == Ok(Money(cents, c))
  {
  }

  /** `validateSameCurrency` followed by `new Money(this.amount.add(other.amount), this.currency)`. */
  function Add(a: Money, b: Money): (r: Result<Money>)
    ensures a.currency != b.currency ==> r == Err(IllegalArgument(CurrencyMismatch))
    ensures a.currency == b.currency ==> r == Ok(Money(a.cents + b.cents, a.currency))
  {
    if a.currency != b.currency then Err(IllegalArgument(CurrencyMismatch))
    else
      ConstructAtScale2(a.cents + b.cents, a.currency);
      New(Some(Decimal(a.cents + b.cents, 2)), Some(a.currency))
  }

  /** `validateSameCurrency` followed by `new Money(this.amount.subtract(other.amount), this.currency)`. */
  function Subtract(a: Money, b: Money): (r: Result<Money>)
    ensures a.currency != b.currency ==> r == Err(IllegalArgument(CurrencyMismatch))
    ensures a.currency == b.currency ==> r == Ok(Money(a.cents - b.cents, a.currency))
  {
    if a.currency != b.currency then Err(IllegalArgument(CurrencyMismatch))
    else
      ConstructAtScale2(a.cents - b.cents, a.currency);
      New(Some(Decimal(a.cents - b.cents, 2)), Some(a.currency))
  }

  /** `multiply(int)`: `BigDecimal.valueOf(factor)` has scale 0, so the product
      keeps scale 2 and is exact. */
  function MultiplyInt(m: Money, factor: Int32): (r: Money)
    ensures r.cents == m.cents * factor && r.currency == m.currency
  {
    ConstructAtScale2(m.cents * factor, m.currency);
    New(Some(Decimal(m.cents * factor, 2)), Some(m.currency)).value
  }

  /** The exact product `m * factor` as a `BigDecimal`: scales add up. */
  function ExactProduct(m: Money, factor: Decimal): Decimal {
    Decimal(m.cents * factor.unscaled, 2 + factor.scale)
  }

  /** `multiply(BigDecimal)`: the exact product, rounded half-up to two decimals. */
  function MultiplyDecimal(m: Money, factor: Decimal): (r: Money)
    ensures r.currency == m.currency
    ensures IsHalfUpRounding(CentsNumerator(ExactProduct(m, factor)), CentsDenominator(ExactProduct(m, factor)), r.cents)
  {
    New(Some(ExactProduct(m, factor)), Some(m.currency)).value
  }

  /** Multiplying by a factor of scale 2 divides the exact product by 100 before rounding. */
  lemma MultiplyByHundredths(m: Money, f: int)
    ensures MultiplyDecimal(m, Decimal(f, 2)).cents == RoundHalfUp(m.cents * f, 100)
  {
    assert Pow10(2) == 100;
    var p := ExactProduct(m, Decimal(f, 2));
    assert CentsNumerator(p) == m.cents * f && CentsDenominator(p) == 100;
    HalfUpUnique(m.cents * f, 100, MultiplyDecimal(m, Decimal(f, 2)).cents, RoundHalfUp(m.cents * f, 100));
  }

  /** `isGreaterThan`: fails on a currency mismatch, else compares the amounts. */
  function IsGreaterThan(a: Money, b: Money): (r: Result<bool>)
    ensures r.Ok? <==> a.currency == b.currency
    ensures r.Err? ==> r.error == IllegalArgument(CurrencyMismatch)
    ensures r.Ok? ==> (r.value <==> a.cents > b.cents)
  {
    if a.currency != b.currency then Err(IllegalArgument(CurrencyMismatch)) else Ok(a.cents > b.cents)
  }

  /** `isLessThan`: fails on a currency mismatch, else compares the amounts. */
  function IsLessThan(a: Money, b: Money): (r: Result<bool>)
    ensures r.Ok? <==> a.currency == b.currency
    ensures r.Err? ==> r.error == IllegalArgument(CurrencyMismatch)
    ensures r.Ok? ==> (r.value <==> a.cents < b.cents)
  {
    if a.currency != b.currency then Err(IllegalArgument(CurrencyMismatch)) else Ok(a.cents < b.cents)
  }

  /** No two amounts are each greater than the other. */
  lemma NeverBothGreaterAndLess(a: Money, b: Money)
    ensures !(IsGreaterThan(a, b) == Ok(true) && IsLessThan(a, b) == Ok(true))
    ensures IsGreaterThan(a, b) == Ok(true) ==> IsLessThan(b, a) == Ok(true)
  {
  }

  predicate IsPositive(m: Money)
    ensures IsPositive(m) <==> m.cents > 0
  {
    m.cents > 0
  }

  predicate IsNegative(m: Money)
    ensures IsNegative(m) <==> m.cents < 0
  {
    m.cents < 0
  }

  predicate IsZero(m: Money)
    ensures IsZero(m) <==> m.cents == 0
  {
    m.cents == 0
  }

  /** Exactly one of the three sign predicates holds. */
  lemma ExactlyOneSign(m: Money)
    ensures IsPositive(m) || IsNegative(m) || IsZero(m)
    ensures !(IsPositive(m) && IsNegative(m))
    ensures !(IsPositive(m) && IsZero(m))
    ensures !(IsNegative(m) && IsZero(m))
  {
  }

  /** `Money.getAmount()`: the amount at scale 2. */
  function Amount(m: Money): (d: Decimal)
    ensures d.scale == 2 && SetScale2(d) == m.cents
  {
    Decimal(m.cents, 2)
  }

  /** `equals`: same amount (both at scale 2) and same currency. */
  predicate Equals(a: Money, b: Money)
    ensures Equals(a, b) <==> a == b
  {
    a.cents == b.cents && a.currency == b.currency
  }
}
