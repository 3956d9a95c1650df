/** `OrderLine`: an immutable line item of an order, identified by its product. */
module OrderLines {
  import opened Results
  import opened JavaInts
  import opened MoneyValues
  import opened Quantities
  import opened ProductIds

  datatype OrderLine = OrderLine(productId: ProductId, productName: string, quantity: Quantity, unitPrice: Money)

  /** `new OrderLine(productId, productName, quantity, unitPrice)`: the three
      null checks in source order, and a null name stored as "". */
  function New(productId: Option<ProductId>, productName: Option<string>,
               quantity: Option<Quantity>, unitPrice: Option<Money>): (r: Result<OrderLine>)
    ensures r.Ok? <==> productId.Some? && quantity.Some? && unitPrice.Some?
    ensures productId.None? ==> r == Err(IllegalArgument(NullProductId))
    ensures productId.Some? && quantity.None? ==> r == Err(IllegalArgument(NullQuantity))
    ensures productId.Some? && quantity.Some? && unitPrice.None? ==> r == Err(IllegalArgument(NullUnitPrice))
    ensures r.Ok? ==>
      && r.value.productId == productId.value
      && r.value.quantity == quantity.value
      && r.value.unitPrice == unitPrice.value
      && r.value.productName == (if productName.Some? then productName.value else "")
  {
    if productId.None? then Err(IllegalArgument(NullProductId))
    else if quantity.None? then Err(IllegalArgument(NullQuantity))
    else if unitPrice.None? then Err(IllegalArgument(NullUnitPrice))
    else Ok(OrderLine(productId.value, productName.GetOr(""), quantity.value, unitPrice.value))
  }

  /** `getSubtotal`: unit price times quantity, exactly, in the unit price's currency. */
  function Subtotal(line: OrderLine): (r: Money)
    ensures r.cents == line.unitPrice.cents * line.quantity.value
    ensures r.currency == line.unitPrice.currency
  {
    MultiplyInt(line.unitPrice, line.quantity.value)
  }

  /** 29.99 times 2 is 59.98. */
  lemma SubtotalExample(p: ProductId, name: string)
    ensures Subtotal(OrderLine(p, name, Quantity(2), Money(2999, USD))) == Money(5998, USD)
  {
  }

  /** `equals`: two lines are equal exactly when their products are, whatever
      their names, quantities and prices; equal lines hash alike. */
  predicate Equals(a: OrderLine, b: OrderLine)
    ensures Equals(a, b) <==> a.productId == b.productId
    ensures Equals(a, b) ==> Hash(a) == Hash(b)
  {
    ProductIds.Equals(a.productId, b.productId)
  }

  /** `hashCode`: `Objects.hash(productId)`. */
  function Hash(line: OrderLine): Int32 {
    ObjectsHash1(ProductIds.Hash(line.productId))
  }
}
