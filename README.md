# Order management: a verified model

This project models the core of a hexagonal order-management service: the
value objects (`Money`, `Quantity`, the three identifiers, `OrderLine`), the
`OrderStatus` enum, the domain events, the `Order` aggregate with its status
machine and event buffer, the pricing rules, the older `domain/Order.java`
aggregate, the `OrderQuery` builder, the `OrderResponse` projection, the query,
create and cancel services and the adapter that maps orders to and from their
stored rows.

- `Money` is a whole number of cents and a currency code. A `BigDecimal`
  input is `Decimal(unscaled, scale)`, and `setScale(2, HALF_UP)` is specified
  by a rounding relation (ties away from zero) proved unique.
- Java exceptions are the `Err` side of `Result` (or `Fail` of `Outcome`),
  one `Error` variant per exception kind and message.
- The aggregates are classes whose methods change their fields in place;
  frames say that nothing else changes. `Order.Valid()` keeps the total in
  line with the lines, keeps confirmed orders non-empty and keeps only events
  the order raised itself.
- The repository is `OrderStore`, a map from id to stored row, with the
  adapter's `save` (`toEntity`, store, return `toDomain`) and `findById`.
  The event publisher is `EventLog`, an append-only log.
- The clock and the random UUID are parameters: every operation reads one
  time `now`, and `generate` takes the UUID it would draw.
- `findAll` and `findByCustomerId` return orders in an order the store does
  not fix, so the query services take their result as a parameter.
- A reloaded order gets the load time as its creation and update time, as the
  adapter builds it through the `Order` constructor. So the date filter and
  the response timestamps see the load time, not the stored times
  (`GetOrders.LoadedResponseIsRowResponse`, `Persistence.IgnoresStoredAmountsAndTimes`).

## Model

| member | source | states |
|---|---|---|
| Decimals.HalfUpUnique | src/main/java/com/davidbadell/hexagonal/domain/model/Money.java:35 | a half-up rounding of a quotient is unique, so any two roundings of one amount agree |
| Decimals.RoundHalfUp | src/main/java/com/davidbadell/hexagonal/domain/model/Money.java:35 | the result is the half-up rounding of n/d: ties go away from zero |
| Decimals.SetScale2 | src/main/java/com/davidbadell/hexagonal/domain/model/Money.java:35 | `setScale(2, HALF_UP)`: the cents are the half-up rounding of the decimal at scale 2, and an amount of at most two decimals is kept exactly |
| Decimals.SetScale2IsTheHalfUpRounding | src/main/java/com/davidbadell/hexagonal/domain/model/Money.java:35 | any integer satisfying the half-up rounding relation is what `setScale` returns |
| Decimals.HalfUpTies | src/main/java/com/davidbadell/hexagonal/domain/model/Money.java:35 | 1.005 rounds to 1.01 and -1.005 to -1.01 (ties away from zero), 1.004 to 1.00, -1.015 to -1.02 |
| MoneyValues.New | src/main/java/com/davidbadell/hexagonal/domain/model/Money.java:24-37 | a null amount fails first, then a null currency; otherwise the amount is held at two decimals, half-up rounded, in the given currency |
| MoneyValues.Of | src/main/java/com/davidbadell/hexagonal/domain/model/Money.java:39-49 | fails exactly on a null amount; otherwise the same rounding in US dollars |
| MoneyValues.ZeroIsConstructed | src/main/java/com/davidbadell/hexagonal/domain/model/Money.java:19 | `ZERO` is what the constructor makes of `BigDecimal.ZERO`: 0.00 USD |
| MoneyValues.ConstructAtScale2 | src/main/java/com/davidbadell/hexagonal/domain/model/Money.java:24-37 | an amount already at two decimals is stored unchanged |
| MoneyValues.Add | src/main/java/com/davidbadell/hexagonal/domain/model/Money.java:54-57 | fails on different currencies; otherwise the exact sum of the cents in this currency |
| MoneyValues.Subtract | src/main/java/com/davidbadell/hexagonal/domain/model/Money.java:62-65 | fails on different currencies; otherwise the exact difference of the cents in this currency |
| MoneyValues.MultiplyInt | src/main/java/com/davidbadell/hexagonal/domain/model/Money.java:70-72 | exact product of the cents and the factor, same currency |
| MoneyValues.MultiplyDecimal | src/main/java/com/davidbadell/hexagonal/domain/model/Money.java:77-79 | the exact product rounded half-up to two decimals, same currency |
| MoneyValues.MultiplyByHundredths | src/main/java/com/davidbadell/hexagonal/domain/model/Money.java:77-79 | multiplying by a rate of two decimals rounds cents times rate over 100 |
| MoneyValues.IsGreaterThan | src/main/java/com/davidbadell/hexagonal/domain/model/Money.java:84-89 | fails on currency mismatch; otherwise true exactly when the amount is larger |
| MoneyValues.IsLessThan | src/main/java/com/davidbadell/hexagonal/domain/model/Money.java:91-95 | fails on currency mismatch; otherwise true exactly when the amount is smaller |
| MoneyValues.NeverBothGreaterAndLess | src/main/java/com/davidbadell/hexagonal/domain/model/Money.java:84-95 | a greater-than and a less-than are never both true, and greater-than is less-than reversed |
| MoneyValues.IsPositive | src/main/java/com/davidbadell/hexagonal/domain/model/Money.java:100-102 | holds exactly for an amount above zero |
| MoneyValues.IsNegative | src/main/java/com/davidbadell/hexagonal/domain/model/Money.java:107-109 | holds exactly for an amount below zero |
| MoneyValues.IsZero | src/main/java/com/davidbadell/hexagonal/domain/model/Money.java:114-116 | holds exactly for a zero amount |
| MoneyValues.ExactlyOneSign | src/main/java/com/davidbadell/hexagonal/domain/model/Money.java:100-116 | exactly one of the three sign predicates holds |
| MoneyValues.Amount | src/main/java/com/davidbadell/hexagonal/domain/model/Money.java:24-37 | the `BigDecimal` an amount reads back as has scale 2 and rounds back to the same cents |
| MoneyValues.Equals | src/main/java/com/davidbadell/hexagonal/domain/model/Money.java:130-136 | equal exactly when amount and currency are |
| Quantities.Of | src/main/java/com/davidbadell/hexagonal/domain/model/Quantity.java:15-24 | succeeds exactly for a positive value, which it stores |
| Quantities.Add | src/main/java/com/davidbadell/hexagonal/domain/model/Quantity.java:29-31 | succeeds exactly when the sum fits in an `int`; a 32-bit overflow wraps to a non-positive value the constructor rejects |
| Quantities.Subtract | src/main/java/com/davidbadell/hexagonal/domain/model/Quantity.java:36-42 | succeeds exactly when this quantity is larger, with the difference |
| Quantities.Equals | src/main/java/com/davidbadell/hexagonal/domain/model/Quantity.java:48-59 | equal by value, with equal hashes |
| JavaStrings.IsBlank | src/main/java/com/davidbadell/hexagonal/domain/model/OrderId.java:19-24 | `isBlank`: the string is empty or all whitespace |
| JavaInts.Wrap32 | src/main/java/com/davidbadell/hexagonal/domain/model/Quantity.java:29-31 | Java `int` arithmetic: an in-range value is unchanged, and the result agrees with the exact value modulo 2^32 |
| Uuids.UuidString | src/main/java/com/davidbadell/hexagonal/domain/model/OrderId.java:29-31 | the canonical UUID text has 36 characters, dashes at 8, 13, 18 and 23, and is not blank |
| OrderIds.Of | src/main/java/com/davidbadell/hexagonal/domain/model/OrderId.java:19-24 | fails exactly on a null or blank value (`BlankOrderId`); otherwise stores it unchanged |
| OrderIds.Generate | src/main/java/com/davidbadell/hexagonal/domain/model/OrderId.java:29-31 | a generated id is one `of` accepts, with the 36-character UUID text |
| OrderIds.ToString | src/main/java/com/davidbadell/hexagonal/domain/model/OrderId.java:57-60 | `toString` is the value, which `of` reads back as the same id |
| OrderIds.Equals | src/main/java/com/davidbadell/hexagonal/domain/model/OrderId.java:44-55 | equal by value, with equal hashes |
| CustomerIds.Of | src/main/java/com/davidbadell/hexagonal/domain/model/CustomerId.java:14-19 | fails exactly on a null or blank value; otherwise stores it unchanged |
| CustomerIds.Generate | src/main/java/com/davidbadell/hexagonal/domain/model/CustomerId.java:21-23 | a generated id is one `of` accepts |
| CustomerIds.ToString | src/main/java/com/davidbadell/hexagonal/domain/model/CustomerId.java:46-49 | `toString` is the value, which `of` reads back |
| CustomerIds.Equals | src/main/java/com/davidbadell/hexagonal/domain/model/CustomerId.java:33-44 | equal by value, with equal hashes |
| ProductIds.Of | src/main/java/com/davidbadell/hexagonal/domain/model/ProductId.java:14-19 | fails exactly on a null or blank value; otherwise stores it unchanged |
| ProductIds.Generate | src/main/java/com/davidbadell/hexagonal/domain/model/ProductId.java:21-23 | a generated id is one `of` accepts |
| ProductIds.ToString | src/main/java/com/davidbadell/hexagonal/domain/model/ProductId.java:46-49 | `toString` is the value, which `of` reads back |
| ProductIds.Equals | src/main/java/com/davidbadell/hexagonal/domain/model/ProductId.java:33-44 | equal by value, with equal hashes |
| OrderLines.New | src/main/java/com/davidbadell/hexagonal/domain/model/OrderLine.java:18-33 | null product, quantity and price fail in that order; otherwise the fields are stored and a null name becomes "" |
| OrderLines.Subtotal | src/main/java/com/davidbadell/hexagonal/domain/model/OrderLine.java:38-40 | unit price times quantity, exactly, in the unit price currency |
| OrderLines.SubtotalExample | src/test/java/com/davidbadell/hexagonal/domain/OrderTest.java:71-83 | 29.99 times 2 is 59.98 |
| OrderLines.Equals | src/main/java/com/davidbadell/hexagonal/domain/model/OrderLine.java:48-59 | equal exactly when the product ids are, whatever name, quantity and price; equal lines hash alike |
| OrderStatuses.ExactlyFiveStates | src/main/java/com/davidbadell/hexagonal/domain/model/OrderStatus.java:9-13 | every status is one of five distinct constants |
| OrderStatuses.IsModifiable | src/main/java/com/davidbadell/hexagonal/domain/model/OrderStatus.java:34-36 | holds exactly for PENDING |
| OrderStatuses.IsCancellable | src/main/java/com/davidbadell/hexagonal/domain/model/OrderStatus.java:41-43 | holds exactly for neither DELIVERED nor CANCELLED |
| OrderStatuses.IsFinal | src/main/java/com/davidbadell/hexagonal/domain/model/OrderStatus.java:48-50 | holds exactly for DELIVERED or CANCELLED |
| OrderStatuses.CancellableIffNotFinal | src/main/java/com/davidbadell/hexagonal/domain/model/OrderStatus.java:41-50 | cancellable is the negation of final |
| OrderStatuses.ValueOf | src/main/java/com/davidbadell/hexagonal/domain/model/OrderStatus.java:9-13 | `valueOf` recognises a name only as the name of the status it returns |
| OrderStatuses.ValueOfName | src/main/java/com/davidbadell/hexagonal/domain/model/OrderStatus.java:9-13 | `valueOf(s.name())` is `s` |
| OrderStatuses.ValueOfRecognisesNames | src/main/java/com/davidbadell/hexagonal/domain/model/OrderStatus.java:9-13 | `valueOf` succeeds exactly on the five constant names |
| Events.NewCancelled | src/main/java/com/davidbadell/hexagonal/domain/event/OrderCancelledEvent.java:19-21 | the two-argument constructor leaves the reason null |
| Events.EventType | src/main/java/com/davidbadell/hexagonal/domain/event/OrderCreatedEvent.java:40-43 | the type tags are "OrderCreated", "OrderCancelled" and "OrderStatusChanged" |
| Events.EventTypeIdentifiesKind | src/main/java/com/davidbadell/hexagonal/domain/event/OrderStatusChangedEvent.java:46-49 | two events have the same type tag exactly when they are of the same kind |
| Events.RoutingKeysMatchBindings | src/main/java/com/davidbadell/hexagonal/infrastructure/adapter/out/messaging/EventPublisherAdapter.java:43 | the lower-cased type of a created (cancelled) event is the binding key of the created (cancelled) queue; a status-changed event matches neither |
| Orders.RecalculatedTotal | src/main/java/com/davidbadell/hexagonal/domain/model/Order.java:72-76 | the left fold of `add` over the subtotals from `ZERO` |
| Orders.FoldIsSum | src/main/java/com/davidbadell/hexagonal/domain/model/Order.java:72-76 | the fold succeeds exactly when every line is priced in the running currency, and is then the running amount plus the sum of subtotals; otherwise it throws a currency mismatch |
| Orders.TotalIsSum | src/main/java/com/davidbadell/hexagonal/domain/model/Order.java:72-76 | the total of lines all in US dollars is the sum of their subtotals; otherwise the recalculation throws |
| Orders.SumOfConcat | src/main/java/com/davidbadell/hexagonal/domain/model/Order.java:72-76 | the sum of subtotals splits over concatenation |
| Orders.SumOfPermutation | src/main/java/com/davidbadell/hexagonal/domain/model/Order.java:72-76 | reordering the lines does not change the sum |
| Orders.TotalIndependentOfLineOrder | src/main/java/com/davidbadell/hexagonal/domain/model/Order.java:72-76 | reordering the lines does not change the recalculated total or whether it throws |
| Orders.Lifecycle | src/test/java/com/davidbadell/hexagonal/domain/OrderTest.java:88-253 | two lines of 2 x 10.00 and 3 x 5.00 total 35.00; confirm, ship and deliver reach DELIVERED; cancel is then refused; cleared events leave none |
| Orders.TotalExample | src/test/java/com/davidbadell/hexagonal/domain/OrderTest.java:88-110 | 2 x 10.00 + 3 x 5.00 is 35.00 |
| Orders.FirstIndexOf | src/main/java/com/davidbadell/hexagonal/domain/model/Order.java:67 | the first position whose product id is the given one, or the length |
| Orders.RemoveFirst | src/main/java/com/davidbadell/hexagonal/domain/model/Order.java:67 | `List.remove`: only the first line equal by product id goes, the others keep their order; no such line leaves the list unchanged |
| Orders.Order.constructor | src/main/java/com/davidbadell/hexagonal/domain/model/Order.java:32-44 | a new order is pending with no lines, a zero total, both timestamps the creation time and exactly one OrderCreated event with its own id, customer and creation time |
| Orders.Order.DomainEvents | src/main/java/com/davidbadell/hexagonal/domain/model/Order.java:139-141 | the pending events as buffered, each of which, for a valid order, is this order's creation or a reasonless cancellation of it |
| Orders.Order.RegisterEvent | src/main/java/com/davidbadell/hexagonal/domain/model/Order.java:135-137 | appends the event to the buffer |
| Orders.Order.ClearDomainEvents | src/main/java/com/davidbadell/hexagonal/domain/model/Order.java:143-145 | empties the buffer and changes nothing else |
| Orders.Order.RecalculateTotal | src/main/java/com/davidbadell/hexagonal/domain/model/Order.java:72-76 | assigns the fold, or throws its currency mismatch leaving the total alone |
| Orders.Order.AddOrderLine | src/main/java/com/davidbadell/hexagonal/domain/model/Order.java:50-57 | fails off PENDING with nothing changed; otherwise appends the line, then sets total and update time, or throws on a currency mismatch with the line appended but total and time unchanged |
| Orders.Order.RemoveOrderLine | src/main/java/com/davidbadell/hexagonal/domain/model/Order.java:63-70 | fails off PENDING with nothing changed; otherwise removes the first line with that product and recalculates as above |
| Orders.Order.Confirm | src/main/java/com/davidbadell/hexagonal/domain/model/Order.java:82-91 | a non-pending order fails first, then an empty one; otherwise CONFIRMED at `now`, no event |
| Orders.Order.Ship | src/main/java/com/davidbadell/hexagonal/domain/model/Order.java:97-103 | succeeds only from CONFIRMED, to SHIPPED; a failure changes nothing; no event |
| Orders.Order.Deliver | src/main/java/com/davidbadell/hexagonal/domain/model/Order.java:109-115 | succeeds only from SHIPPED, to DELIVERED; a failure changes nothing; no event |
| Orders.Order.Cancel | src/main/java/com/davidbadell/hexagonal/domain/model/Order.java:121-133 | fails from DELIVERED or CANCELLED with nothing changed; otherwise CANCELLED at `now` with exactly one OrderCancelled event (no reason) appended |
| Orders.SameOrder | src/main/java/com/davidbadell/hexagonal/domain/model/Order.java:156-167 | two aggregates are equal exactly when their ids are, whatever their state; equal orders hash alike |
| Orders.OnlyCreatedAndCancelledEvents | src/main/java/com/davidbadell/hexagonal/domain/model/Order.java:82-133 | no operation buffers a status-changed event; buffered cancellations carry no reason and every event the order id |
| Pricing.Discount | src/main/java/com/davidbadell/hexagonal/domain/service/PricingService.java:38-46 | above 100.00 the discount is the total times 0.10 rounded half-up; 100.00 and below get zero |
| Pricing.Tax | src/main/java/com/davidbadell/hexagonal/domain/service/PricingService.java:51-53 | the amount times 0.21 rounded half-up, same currency |
| Pricing.FinalPrice | src/main/java/com/davidbadell/hexagonal/domain/service/PricingService.java:25-32 | total minus discount plus the tax on that; fails only when a non-USD total gets the zero-USD discount |
| Pricing.FinalPriceNearNominal | src/main/java/com/davidbadell/hexagonal/domain/service/PricingService.java:25-32 | above 100.00 the final price is within a rounding step of 1.089 times the total |
| Pricing.FinalPriceExamples | src/main/java/com/davidbadell/hexagonal/domain/service/PricingService.java:25-32 | 200.00 costs 217.80, 100.00 costs 121.00, 100.01 costs 108.91 |
| Pricing.MeetsMinimum | src/main/java/com/davidbadell/hexagonal/domain/service/PricingService.java:58-63 | fails outside US dollars; otherwise true exactly from 10.00 on |
| Pricing.ShippingCost | src/main/java/com/davidbadell/hexagonal/domain/service/PricingService.java:68-77 | fails outside US dollars; free above 50.00, otherwise 5.99 |
| Pricing.ThresholdsAreSharp | src/main/java/com/davidbadell/hexagonal/domain/service/PricingService.java:18-20 | 50.00 pays shipping and 50.01 does not; 10.00 meets the minimum and 9.99 does not; 100.00 gets no discount |
| LegacyDomain.QuantityOf | src/main/java/com/davidbadell/hexagonal/domain/Order.java:117-124 | the legacy quantity rejects values of 0 and below |
| LegacyDomain.LegacyLine.constructor | src/main/java/com/davidbadell/hexagonal/domain/Order.java:81-99 | a line holds its product, quantity and price |
| LegacyDomain.LegacyLine.Subtotal | src/main/java/com/davidbadell/hexagonal/domain/Order.java:81-99 | price times quantity, exact and unrounded |
| LegacyDomain.FoldIsSum | src/main/java/com/davidbadell/hexagonal/domain/Order.java:39-43 | the fold from a start amount is that amount plus the sum of subtotals |
| LegacyDomain.FirstIndexOfObject | src/main/java/com/davidbadell/hexagonal/domain/Order.java:34-37 | the first position holding that very line object |
| LegacyDomain.RemoveObject | src/main/java/com/davidbadell/hexagonal/domain/Order.java:34-37 | removal by reference: only the first occurrence of that object goes |
| LegacyDomain.NeverShippedOrDelivered | src/main/java/com/davidbadell/hexagonal/domain/Order.java:45-57 | any sequence of confirm and cancel steps stays among PENDING, CONFIRMED and CANCELLED, so cancel never fails |
| LegacyDomain.LegacyOrder.constructor | src/main/java/com/davidbadell/hexagonal/domain/Order.java:20-27 | a new legacy order is pending with no lines and a zero total |
| LegacyDomain.LegacyOrder.CalculateTotal | src/main/java/com/davidbadell/hexagonal/domain/Order.java:39-43 | the total becomes the exact sum of subtotals |
| LegacyDomain.LegacyOrder.AddOrderLine | src/main/java/com/davidbadell/hexagonal/domain/Order.java:29-32 | appends with no status guard and keeps the total the sum |
| LegacyDomain.LegacyOrder.RemoveOrderLine | src/main/java/com/davidbadell/hexagonal/domain/Order.java:34-37 | removes that object with no status guard and keeps the total the sum |
| LegacyDomain.LegacyOrder.Confirm | src/main/java/com/davidbadell/hexagonal/domain/Order.java:45-50 | succeeds from PENDING even with no lines, fails from any other status |
| LegacyDomain.LegacyOrder.Cancel | src/main/java/com/davidbadell/hexagonal/domain/Order.java:52-57 | fails only from DELIVERED; cancelling a cancelled order succeeds |
| LegacyDomain.LegacyOrder.GetOrderLines | src/main/java/com/davidbadell/hexagonal/domain/Order.java:62 | a fresh array holding the lines, so the caller cannot change the order through it |
| OrderQueries.QueryBuilder.constructor | src/main/java/com/davidbadell/hexagonal/application/dto/OrderQuery.java:44-49 | filters unset, page 0, size 20 |
| OrderQueries.QueryBuilder.CustomerId | src/main/java/com/davidbadell/hexagonal/application/dto/OrderQuery.java:51-54 | sets only its field and returns the same builder |
| OrderQueries.QueryBuilder.Status | src/main/java/com/davidbadell/hexagonal/application/dto/OrderQuery.java:56-59 | sets only its field and returns the same builder |
| OrderQueries.QueryBuilder.FromDate | src/main/java/com/davidbadell/hexagonal/application/dto/OrderQuery.java:61-64 | sets only its field and returns the same builder |
| OrderQueries.QueryBuilder.ToDate | src/main/java/com/davidbadell/hexagonal/application/dto/OrderQuery.java:66-69 | sets only its field and returns the same builder |
| OrderQueries.QueryBuilder.Page | src/main/java/com/davidbadell/hexagonal/application/dto/OrderQuery.java:71-74 | sets only its field and returns the same builder |
| OrderQueries.QueryBuilder.Size | src/main/java/com/davidbadell/hexagonal/application/dto/OrderQuery.java:76-79 | sets only its field and returns the same builder |
| OrderQueries.QueryBuilder.Build | src/main/java/com/davidbadell/hexagonal/application/dto/OrderQuery.java:81-83 | a query holding the six builder fields unchanged |
| OrderResponses.LineFromDomain | src/main/java/com/davidbadell/hexagonal/application/dto/OrderResponse.java:86-94 | product id value, name, quantity value, unit price and subtotal amount of the line |
| OrderResponses.FromDomain | src/main/java/com/davidbadell/hexagonal/application/dto/OrderResponse.java:38-52 | id and customer values, the status name that `valueOf` reads back, the total amount, both timestamps, one item per line in line order |
| OrderResponses.ItemsAddUpToTotal | src/main/java/com/davidbadell/hexagonal/application/dto/OrderResponse.java:38-52 | for a valid order in US dollars the item subtotals add up to the response total |
| OrderResponses.ItemSumIsLineSum | src/main/java/com/davidbadell/hexagonal/application/dto/OrderResponse.java:39-41 | the item subtotals add up to the line subtotals |
| GetOrders.MatchesCustomer | src/main/java/com/davidbadell/hexagonal/application/service/GetOrderService.java:59-64 | a null or blank customer matches all; otherwise exact equality |
| GetOrders.MatchesDateRange | src/main/java/com/davidbadell/hexagonal/application/service/GetOrderService.java:78-86 | rejected only when created strictly before `fromDate` or strictly after `toDate`; bounds inclusive, null bounds ignored |
| GetOrders.StatusFilterIgnoresCase | src/main/java/com/davidbadell/hexagonal/application/service/GetOrderService.java:66-76 | the status filter upper-cases, so "pending" filters like "PENDING" |
| GetOrders.MatchesStatus | src/main/java/com/davidbadell/hexagonal/application/service/GetOrderService.java:66-76 | an order passes exactly when the status is null or blank, names no status once upper-cased, or names the order's own status |
| GetOrders.UnknownStatusKeepsAll | src/main/java/com/davidbadell/hexagonal/application/service/GetOrderService.java:66-76 | a null, blank or unrecognised status matches every order |
| GetOrders.NullOrBlankStatusKeepsAll | src/main/java/com/davidbadell/hexagonal/application/service/GetOrderService.java:67-68 | the null status and every blank status match every order |
| GetOrders.DefaultQueryMatchesAll | src/main/java/com/davidbadell/hexagonal/application/dto/OrderQuery.java:44-49 | the default query filters nothing out |
| GetOrders.KeptPositionsSpec | src/main/java/com/davidbadell/hexagonal/application/service/GetOrderService.java:49-52 | the kept positions are those of the matching orders: each matches, they increase, and none is missed |
| GetOrders.FilteredIsKept | src/main/java/com/davidbadell/hexagonal/application/service/GetOrderService.java:49-52 | the filtered stream is exactly the orders at the kept positions, in order |
| GetOrders.SkipThenLimit | src/main/java/com/davidbadell/hexagonal/application/service/GetOrderService.java:53-54 | `skip(n).limit(m)` keeps at most m elements from position n on |
| GetOrders.PageIsKeptOrders | src/main/java/com/davidbadell/hexagonal/application/service/GetOrderService.java:49-54 | the page holds the orders at the kept positions from rank `skip` on |
| GetOrders.Responses | src/main/java/com/davidbadell/hexagonal/application/service/GetOrderService.java:55 | one response per order, in order |
| GetOrders.QueryOrders | src/main/java/com/davidbadell/hexagonal/application/service/GetOrderService.java:44-57 | fails exactly on a negative skip or size; otherwise min(size, matches - page x size) responses of the matching orders from rank page x size, in `findAll` order |
| GetOrders.PageResponses | src/main/java/com/davidbadell/hexagonal/application/service/GetOrderService.java:53-56 | the responses of the matches from rank `skip` on, at most `size` |
| GetOrders.QueryResultsAreOrderedMatches | src/main/java/com/davidbadell/hexagonal/application/service/GetOrderService.java:49-54 | every result comes from a matching order, and earlier results from earlier orders |
| GetOrders.FilterKeepsAll | src/main/java/com/davidbadell/hexagonal/application/service/GetOrderService.java:49-52 | when every order matches the filter keeps them all |
| GetOrders.DefaultQueryIsFirstPage | src/main/java/com/davidbadell/hexagonal/application/dto/OrderQuery.java:48-49 | the default query returns the first 20 orders |
| GetOrders.RowResponse | src/main/java/com/davidbadell/hexagonal/application/service/GetOrderService.java:30-34 | the response of a loaded row: its id, customer and status, both timestamps the load time |
| GetOrders.LoadedResponseIsRowResponse | src/main/java/com/davidbadell/hexagonal/infrastructure/adapter/out/persistence/OrderRepositoryAdapter.java:91-121 | the response of a loaded order depends only on the row and the load time |
| GetOrders.GetOrderById | src/main/java/com/davidbadell/hexagonal/application/service/GetOrderService.java:30-34 | a blank id fails; empty exactly when no row has the id; otherwise the response of that row |
| GetOrders.GetOrdersByCustomerId | src/main/java/com/davidbadell/hexagonal/application/service/GetOrderService.java:36-42 | a blank customer fails; otherwise one response per order found, in order |
| Persistence.LineEntityOf | src/main/java/com/davidbadell/hexagonal/infrastructure/adapter/out/persistence/OrderRepositoryAdapter.java:77-86 | product id, name, quantity, unit price and subtotal of the line |
| Persistence.EntityOf | src/main/java/com/davidbadell/hexagonal/infrastructure/adapter/out/persistence/OrderRepositoryAdapter.java:67-89 | id, customer, status, total amount, timestamps and one line entity per line, in order |
| Persistence.ToEntity | src/main/java/com/davidbadell/hexagonal/infrastructure/adapter/out/persistence/OrderRepositoryAdapter.java:67-89 | the loop builds exactly `EntityOf(o)` |
| Persistence.RebuildLine | src/main/java/com/davidbadell/hexagonal/infrastructure/adapter/out/persistence/OrderRepositoryAdapter.java:98-106 | fails on a blank product id, then on a non-positive quantity; otherwise the line in US dollars, a null name as "" |
| Persistence.LinesError | src/main/java/com/davidbadell/hexagonal/infrastructure/adapter/out/persistence/OrderRepositoryAdapter.java:98-106 | none exactly when every stored line can be rebuilt |
| Persistence.RebuiltLines | src/main/java/com/davidbadell/hexagonal/infrastructure/adapter/out/persistence/OrderRepositoryAdapter.java:98-106 | one line per stored line, all in US dollars |
| Persistence.FirstLineError | src/main/java/com/davidbadell/hexagonal/infrastructure/adapter/out/persistence/OrderRepositoryAdapter.java:98-106 | the error is that of the first stored line that cannot be rebuilt |
| Persistence.AddStoredLines | src/main/java/com/davidbadell/hexagonal/infrastructure/adapter/out/persistence/OrderRepositoryAdapter.java:98-106 | adds the rebuilt lines in row order, or throws the first line error |
| Persistence.ReplayStatus | src/main/java/com/davidbadell/hexagonal/infrastructure/adapter/out/persistence/OrderRepositoryAdapter.java:109-115 | walks a pending order to the stored status; a confirmed, shipped or delivered row without lines throws in `confirm` |
| Persistence.ToDomain | src/main/java/com/davidbadell/hexagonal/infrastructure/adapter/out/persistence/OrderRepositoryAdapter.java:91-121 | throws the row error, or a fresh valid order with the stored ids, lines and status, the sum as total, the load time as both timestamps and no pending events |
| Persistence.InUsd | src/main/java/com/davidbadell/hexagonal/infrastructure/adapter/out/persistence/OrderRepositoryAdapter.java:98-106 | a line repriced in US dollars; unchanged if already in US dollars |
| Persistence.LineRoundTrip | src/main/java/com/davidbadell/hexagonal/infrastructure/adapter/out/persistence/OrderRepositoryAdapter.java:67-121 | a stored line rebuilds as the same line in US dollars |
| Persistence.EntityRoundTrip | src/main/java/com/davidbadell/hexagonal/infrastructure/adapter/out/persistence/OrderRepositoryAdapter.java:67-121 | the row of a valid order can be reloaded, giving its lines in US dollars; in US dollars lines and total come back unchanged |
| Persistence.IgnoresStoredAmountsAndTimes | src/main/java/com/davidbadell/hexagonal/infrastructure/adapter/out/persistence/OrderRepositoryAdapter.java:91-121 | rows differing only in total, subtotals and timestamps reload alike |
| Persistence.LinesErrorAgree | src/main/java/com/davidbadell/hexagonal/infrastructure/adapter/out/persistence/OrderRepositoryAdapter.java:98-106 | stored lines that rebuild alike fail alike |
| Persistence.EmptyConfirmedRowFails | src/main/java/com/davidbadell/hexagonal/infrastructure/adapter/out/persistence/OrderRepositoryAdapter.java:110-112 | a confirmed, shipped or delivered row without lines cannot be loaded |
| Persistence.OrderStore.Save | src/main/java/com/davidbadell/hexagonal/infrastructure/adapter/out/persistence/OrderRepositoryAdapter.java:28-32 | stores the row under the id, changing no other row, and returns the reload of it |
| Persistence.OrderStore.FindById | src/main/java/com/davidbadell/hexagonal/infrastructure/adapter/out/persistence/OrderRepositoryAdapter.java:35-38 | empty exactly when no row has the id; otherwise the reload of that row |
| Services.EventLog.Publish | src/main/java/com/davidbadell/hexagonal/application/service/CreateOrderService.java:51-53 | appends one event to the published log |
| Services.PublishAll | src/main/java/com/davidbadell/hexagonal/application/service/CreateOrderService.java:51-53 | publishes every event once, in list order |
| Services.ItemLine | src/main/java/com/davidbadell/hexagonal/application/service/CreateOrderService.java:38-43 | a blank product, a non-positive quantity and a null price fail in that order; otherwise the line with the price rounded to cents in US dollars |
| Services.ItemsError | src/main/java/com/davidbadell/hexagonal/application/service/CreateOrderService.java:37-45 | none exactly when every item makes a line |
| Services.FirstItemError | src/main/java/com/davidbadell/hexagonal/application/service/CreateOrderService.java:37-45 | the error is that of the first bad item |
| Services.ItemLines | src/main/java/com/davidbadell/hexagonal/application/service/CreateOrderService.java:37-45 | one line per item, all in US dollars |
| Services.AddItemLines | src/main/java/com/davidbadell/hexagonal/application/service/CreateOrderService.java:37-45 | adds one line per item in item order, or throws at the first bad item |
| Services.BuildOrder | src/main/java/com/davidbadell/hexagonal/application/service/CreateOrderService.java:31-45 | a blank customer fails before the items; otherwise a fresh pending order with the generated id, the customer, one line per item and one creation event |
| Services.CreatedRow | src/main/java/com/davidbadell/hexagonal/application/service/CreateOrderService.java:48 | the stored row has the generated id, the customer, PENDING and one line per item |
| Services.CreatedResponse | src/main/java/com/davidbadell/hexagonal/application/service/CreateOrderService.java:57 | the response is PENDING with one item per command item and the sum of price times quantity as total |
| Services.CreatedOrderRow | src/main/java/com/davidbadell/hexagonal/application/service/CreateOrderService.java:48 | the built order is saved as exactly that row |
| Services.SaveCreated | src/main/java/com/davidbadell/hexagonal/application/service/CreateOrderService.java:48 | saving the built order writes exactly its row and returns a fresh copy rebuilt from that row, with no pending events |
| Services.CreatedOrderResponse | src/main/java/com/davidbadell/hexagonal/application/service/CreateOrderService.java:57 | the reloaded order projects to that response |
| Services.CreateOrder | src/main/java/com/davidbadell/hexagonal/application/service/CreateOrderService.java:29-58 | as written: a bad command stores nothing; a good one stores exactly its row once and returns its response; nothing is ever published |
| Services.CreateOrderPublishingEvents | src/main/java/com/davidbadell/hexagonal/application/service/CreateOrderService.java:29-58 | the same table and response, and exactly the one OrderCreated event of the new order is published |
| Services.CancelledRow | src/main/java/com/davidbadell/hexagonal/application/service/CancelOrderService.java:45 | the row saved back has the same id, customer and lines, status CANCELLED |
| Services.CancelledOrderRow | src/main/java/com/davidbadell/hexagonal/application/service/CancelOrderService.java:45 | the cancelled order is saved as exactly that row |
| Services.SaveCancelled | src/main/java/com/davidbadell/hexagonal/application/service/CancelOrderService.java:45 | saving the cancelled order overwrites its row with the cancelled row and returns a fresh copy rebuilt from it, with no pending events |
| Services.CancelledOrderResponse | src/main/java/com/davidbadell/hexagonal/application/service/CancelOrderService.java:53 | the reloaded order projects to the row response with status CANCELLED |
| Services.LoadAndCancel | src/main/java/com/davidbadell/hexagonal/application/service/CancelOrderService.java:38-42 | an unknown id, a delivered and a cancelled order fail; otherwise the loaded order cancelled with one OrderCancelled event |
| Services.CancelOrder | src/main/java/com/davidbadell/hexagonal/application/service/CancelOrderService.java:33-54 | as written: a blank or unknown id and a refused cancel change nothing; otherwise the row is saved back cancelled; the reason is unused and nothing is ever published |
| Services.CancelOrderWithoutReason | src/main/java/com/davidbadell/hexagonal/application/service/CancelOrderService.java:28-31 | the same outcome as the two-argument form |
| Services.CancelOrderPublishingEvents | src/main/java/com/davidbadell/hexagonal/application/service/CancelOrderService.java:33-54 | the same table and response, and on success exactly one OrderCancelled event without a reason is published |

## Left out

- `Money.of(double)` and `Money.of(String)`: they go through Java's double and decimal string conversions; the model takes decimals as an unscaled integer and a scale.
- JavaStrings.ToUpper: ASCII case mapping only. `status.toUpperCase()` uses the default locale, and the model assumes one whose case mapping keeps ASCII letters ASCII (English or ROOT, for instance). Under a Turkish or Azeri locale `i` becomes `İ`, so "pending", "shipped", "confirmed" and "delivered" name no status and keep every order, the opposite of what GetOrders.StatusFilterIgnoresCase states. Non-ASCII letters are not covered either.
- JavaStrings.ToLower: ASCII case mapping only, for the same reason; the event type tags it is applied to are ASCII.
- LegacyDomain.LegacyLine.constructor, LegacyDomain.LegacyOrder.AddOrderLine, LegacyDomain.LegacyOrder.RemoveOrderLine, Orders.Order.constructor, Orders.Order.AddOrderLine and Orders.Order.RemoveOrderLine: null arguments are excluded by the Dafny types. Java accepts `null` for the legacy line's product, quantity and price, for the line given to either `addOrderLine` or `removeOrderLine`, and for the id and customer of `new Order`. A null line, or a line with a null price, is appended first and then throws a NullPointerException in `calculateTotal` or `recalculateTotal`, which leaves the line in the list and the total stale. A null line given to `removeOrderLine` removes a null element if the list holds one. The model does not capture these paths. The nullable inputs it does model are those the value-object factories check, such as `OrderLine`'s constructor, which take `Option`.
- `Hash` functions: `String.hashCode` and `Objects.hash` are modelled for the equal-hash properties, not as a specification of the numbers.
- `OrderStatus.getDisplayName` and `getDescription`: constant labels that no modelled operation reads.
- The getters of the value objects, events, aggregates and DTOs: they are the datatype fields and class fields themselves.
- `OrderResponse.Builder` and `OrderLineResponse`'s constructor: plain field setters; `fromDomain` builds the datatype directly.
- `OrderRepositoryAdapter.findAll`, `findByCustomerId`, `deleteById` and `existsById`, and the JPA repository behind them: pass-throughs to the database; the query services take the `findAll` / `findByCustomerId` results as parameters.
- The JPA annotations, `OrderEntity`'s status enum mapping and the entities' setters: the entities are plain datatypes.
- Message brokering: serialising and sending events; only the routing key is modelled.
- `LocalDateTime.now()`: one reading per operation is passed in; the source reads the clock several times, so its timestamps within one operation can differ slightly.
- `UUID.randomUUID()`: the UUID is a parameter.
- Exception messages: each exception is an `Error` variant without its text.
- Concurrency and transactions around the services.
- The controller, the command-line adapter, configuration and wiring.

## Findings

| source | as written | input that shows it | evidently intended | confidence | as-written member | corrected member |
|---|---|---|---|---|---|---|
| src/main/java/com/davidbadell/hexagonal/application/service/CreateOrderService.java:48-54 | publishes the events of the order `save` returns, and the adapter's `save` returns `toDomain` of the stored row, which clears its events | any valid command, for example one item of 2 x 10.00 for customer "c" | publish the OrderCreated event of the new aggregate, then clear it | not executed | Services.CreateOrder | Services.CreateOrderPublishingEvents |
| src/main/java/com/davidbadell/hexagonal/application/service/CancelOrderService.java:45-51 | publishes the events of the order `save` returns, which the reload has cleared | cancelling any stored PENDING order | publish the OrderCancelled event of the cancelled aggregate, then clear it | not executed | Services.CancelOrder | Services.CancelOrderPublishingEvents |
