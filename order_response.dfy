/** `OrderResponse` and `OrderResponse.OrderLineResponse`: flat projections of
    an order for the outside world. Amounts become `BigDecimal`s of scale 2. */
module OrderResponses {
  import opened Results
  import opened Decimals
  import opened Timestamps
  import opened MoneyValues
  import opened OrderLines
  import opened OrderStatuses
  import opened Orders

  datatype OrderLineResponse = OrderLineResponse(
    productId: string, productName: string, quantity: int, unitPrice: Decimal, subtotal: Decimal)

  datatype OrderResponse = OrderResponse(
    orderId: string, customerId: string, status: string, total: Decimal,
    createdAt: Timestamp, updatedAt: Timestamp, items: seq<OrderLineResponse>)

  /** `OrderLineResponse.fromDomain`: the product's id, the name, the quantity's
      value, the unit price and the subtotal (price times quantity). */
  function LineFromDomain(line: OrderLine): (r: OrderLineResponse)
    ensures r.productId == line.productId.value && r.productName == line.productName
    ensures r.quantity == line.quantity.value
    ensures r.unitPrice == Amount(line.unitPrice)
    ensures r.subtotal == Decimal(line.unitPrice.cents * line.quantity.value, 2)
  {
    OrderLineResponse(line.productId.value, line.productName, line.quantity.value,
                      Amount(line.unitPrice), Amount(Subtotal(line)))
  }

  /** `OrderResponse.fromDomain`: one item per line, in line order; the status
      as its enum name, which `valueOf` reads back. */
  function FromDomain(o: Order): (r: OrderResponse)
    reads o
    ensures r.orderId == o.id.value && r.customerId == o.customerId.value
    ensures ValueOf(r.status) == Some(o.status)
    ensures r.total == Amount(o.total)
    ensures r.createdAt == o.createdAt && r.updatedAt == o.updatedAt
    ensures |r.items| == |o.lines|
    ensures forall i :: 0 <= i < |o.lines| ==> r.items[i] == LineFromDomain(o.lines[i])
  {
    ValueOfName(o.status);
    OrderResponse(o.id.value, o.customerId.value, Name(o.status), Amount(o.total),
                  o.createdAt, o.updatedAt, seq(|o.lines|, i requires 0 <= i < |o.lines| reads o => LineFromDomain(o.lines[i])))
  }

  /** The item subtotals of a valid order whose lines are all in US dollars
      add up to its total. */
  lemma ItemsAddUpToTotal(o: Order)
    requires o.Valid() && PricedIn(o.lines, USD)
    ensures ItemSum(FromDomain(o).items) == FromDomain(o).total.unscaled
  {
    TotalIsSum(o.lines);
    ItemSumIsLineSum(o.lines, FromDomain(o).items);
  }

  /** The sum of the items' subtotals, in hundredths. */
  function ItemSum(items: seq<OrderLineResponse>): int {
    if items == [] then 0 else items[0].subtotal.unscaled + ItemSum(items[1..])
  }

  lemma {:induction false} ItemSumIsLineSum(lines: seq<OrderLine>, items: seq<OrderLineResponse>)
    requires |items| == |lines|
    requires forall i :: 0 <= i < |lines| ==> items[i] == LineFromDomain(lines[i])
    ensures ItemSum(items) == SumOfSubtotals(lines)
    decreases |lines|
  {
    if lines != [] {
      ItemSumIsLineSum(lines[1..], items[1..]);
    }
  }
}
