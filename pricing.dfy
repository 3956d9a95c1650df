/** `PricingService`: discount, tax, minimum order and shipping rules over an
    order's total. Every rule reads only `order.getTotal()`, so each function
    here takes that total. */
module Pricing {
  import opened Results
  import opened Decimals
  import opened MoneyValues

  /** 21% VAT. */
  const TaxRate: Decimal := Decimal(21, 2)
  /** Totals strictly above 100.00 get the bulk discount. */
  const BulkDiscountThreshold: Decimal := Decimal(10000, 2)
  /** 10% off. */
  const BulkDiscountRate: Decimal := Decimal(10, 2)
  /** `Money.of(10.00)`. */
  const MinimumOrderAmount: Money := Money(1000, USD)
  /** `Money.of(50.00)`. */
  const FreeShippingThreshold: Money := Money(5000, USD)
  /** `Money.of(5.99)`. */
  const StandardShipping: Money := Money(599, USD)

  /** `calculateDiscount`: 10% of the total, rounded half-up, when the amount
      is above 100.00 (whatever its currency); otherwise `Money.ZERO`. */
  function Discount(total: Money): (r: Money)
    ensures total.cents > 10000 ==> r.currency == total.currency && IsHalfUpRounding(total.cents * 10, 100, r.cents)
    ensures total.cents <= 10000 ==> r == Zero
  {
    assert CentsNumerator(BulkDiscountThreshold) == 10000;
    if total.cents > CentsNumerator(BulkDiscountThreshold) then
      MultiplyByHundredths(total, BulkDiscountRate.unscaled);
      MultiplyDecimal(total, BulkDiscountRate)
    else Zero
  }

  /** `calculateTax`: 21% of the amount, rounded half-up, in its currency. */
  function Tax(amount: Money): (r: Money)
    ensures r.currency == amount.currency
    ensures IsHalfUpRounding(amount.cents * 21, 100, r.cents)
  {
    MultiplyByHundredths(amount, TaxRate.unscaled);
    MultiplyDecimal(amount, TaxRate)
  }

  /** `calculateFinalPrice`: the discounted total plus the tax on it. A total
      in another currency than US dollars that gets no discount fails, since
      `Money.ZERO` is then subtracted from it. */
  function FinalPrice(total: Money): (r: Result<Money>)
    ensures r.Err? <==> total.currency != USD && total.cents <= 10000
    ensures r.Err? ==> r.error == IllegalArgument(CurrencyMismatch)
    ensures r.Ok? ==>
      var after := total.cents - Discount(total).cents;
      && r.value.currency == total.currency
      && r.value.cents == after + Tax(Money(after, total.currency)).cents
  {
    var afterDiscount :- Subtract(total, Discount(total));
    Add(afterDiscount, Tax(afterDiscount))
  }

  /** The final price of a discounted total is within a little over a cent of
      1.089 times the total (0.90 for the discount, 1.21 for the tax). */
  lemma FinalPriceNearNominal(total: Money)
    requires total.cents > 10000
    ensures FinalPrice(total).Ok?
    ensures Abs(10000 * FinalPrice(total).value.cents - 10890 * total.cents) <= 11050
  {
    var d := Discount(total).cents;
    var after := total.cents - d;
    var tax := Tax(Money(after, total.currency)).cents;
    assert 2 * Abs(total.cents * 10 - d * 100) <= 100;
    assert 2 * Abs(after * 21 - tax * 100) <= 100;
    assert Abs(100 * after - 90 * total.cents) <= 50;
    assert Abs(100 * (after + tax) - 121 * after) <= 50;
    var e1 := 100 * after - 90 * total.cents;
    var e2 := 100 * (after + tax) - 121 * after;
    assert 10000 * (after + tax) - 10890 * total.cents == 100 * e2 + 121 * e1;
  }

  /** 200.00 costs 217.80; exactly 100.00 gets no discount and costs 121.00;
      one cent more, 100.01, gets the discount and costs only 108.91. */
  lemma FinalPriceExamples()
    ensures FinalPrice(Money(20000, USD)) == Ok(Money(21780, USD))
    ensures FinalPrice(Money(10000, USD)) == Ok(Money(12100, USD))
    ensures FinalPrice(Money(10001, USD)) == Ok(Money(10891, USD))
  {
    HalfUpUnique(20000 * 10, 100, Discount(Money(20000, USD)).cents, 2000);
    HalfUpUnique(18000 * 21, 100, Tax(Money(18000, USD)).cents, 3780);
    HalfUpUnique(10000 * 21, 100, Tax(Money(10000, USD)).cents, 2100);
    HalfUpUnique(10001 * 10, 100, Discount(Money(10001, USD)).cents, 1000);
    HalfUpUnique(9001 * 21, 100, Tax(Money(9001, USD)).cents, 1890);
  }

  /** `meetsMinimumOrderRequirements`: the total is at least 10.00; a total in
      another currency makes `isGreaterThan` throw. */
  function MeetsMinimum(total: Money): (r: Result<bool>)
    ensures r.Ok? <==> total.currency == USD
    ensures r.Err? ==> r.error == IllegalArgument(CurrencyMismatch)
    ensures r.Ok? ==> (r.value <==> total.cents >= 1000)
  {
    var greater :- IsGreaterThan(total, MinimumOrderAmount);
    Ok(greater || Equals(total, MinimumOrderAmount))
  }

  /** `calculateShippingCost`: free above 50.00, otherwise 5.99; a total in
      another currency makes `isGreaterThan` throw. */
  function ShippingCost(total: Money): (r: Result<Money>)
    ensures r.Ok? <==> total.currency == USD
    ensures r.Err? ==> r.error == IllegalArgument(CurrencyMismatch)
    ensures r.Ok? && total.cents > 5000 ==> r.value == Zero
    ensures r.Ok? && total.cents <= 5000 ==> r.value == Money(599, USD)
  {
    var free :- IsGreaterThan(total, FreeShippingThreshold);
    if free then Ok(Zero) else Ok(StandardShipping)
  }

  /** Shipping is free exactly when the total exceeds 50.00, so an order of
      exactly 50.00 pays 5.99; the minimum is met from 10.00 on. */
  lemma ThresholdsAreSharp()
    ensures ShippingCost(Money(5000, USD)) == Ok(Money(599, USD))
    ensures ShippingCost(Money(5001, USD)) == Ok(Zero)
    ensures MeetsMinimum(Money(1000, USD)) == Ok(true)
    ensures MeetsMinimum(Money(999, USD)) == Ok(false)
    ensures Discount(Money(10000, USD)) == Zero
  {
  }
}
