/** `CreateOrderService` and `CancelOrderService`: load or build an aggregate,
    change it, save it, publish the pending events of the order `save`
    returned, and clear them.

    Because `save` returns `toDomain` of the stored row, and `toDomain` clears
    the events it raised while rebuilding, the order the services publish from
    has no pending events: as written, neither service ever publishes
    anything. `CreateOrder` and `CancelOrder` model the code as written and
    prove that; `CreateOrderPublishingEvents` and `CancelOrderPublishingEvents`
    publish the events of the aggregate they changed, as evidently intended. */
module Services {
  import opened Results
  import opened JavaInts
  import opened JavaStrings
  import opened Decimals
  import opened Timestamps
  import opened MoneyValues
  import opened Quantities
  import opened Uuids
  import opened OrderIds
  import opened CustomerIds
  import opened ProductIds
  import opened OrderLines
  import opened OrderStatuses
  import opened Events
  import opened Orders
  import opened OrderResponses
  import opened Persistence
  import opened GetOrders

  /** The event publisher port: an append-only log of what was sent. */
  class EventLog {
    var published: seq<DomainEvent>

    constructor ()
      ensures published == []
    {
      published := [];
    }

    method Publish(e: DomainEvent)
      modifies this
      ensures published == old(published) + [e]
    {
      published := published + [e];
    }
  }

  /** `for (DomainEvent event : events) eventPublisher.publish(event);` */
  method PublishAll(log: EventLog, events: seq<DomainEvent>)
    modifies log
    ensures log.published == old(log.published) + events
  {
    var i := 0;
    while i < |events|
      invariant 0 <= i <= |events|
      invariant log.published == old(log.published) + events[..i]
    {
      log.Publish(events[i]);
      i := i + 1;
    }
  }

  // ---------------------------------------------------------------------------
  // createOrder

  datatype OrderItemCommand = OrderItemCommand(
    productId: Option<string>, productName: Option<string>, quantity: Int32, price: Option<Decimal>)

  datatype CreateOrderCommand = CreateOrderCommand(customerId: Option<string>, items: seq<OrderItemCommand>)

  /** `new OrderLine(ProductId.of(..), name, Quantity.of(..), Money.of(price))`
      for one item: product, then quantity, then price are checked. */
  function ItemLine(item: OrderItemCommand): (r: Result<OrderLine>)
    ensures r.Ok? <==> !NullOrBlank(item.productId) && item.quantity > 0 && item.price.Some?
    ensures NullOrBlank(item.productId) ==> r == Err(IllegalArgument(BlankProductId))
    ensures !NullOrBlank(item.productId) && item.quantity <= 0 ==> r == Err(IllegalArgument(NonPositiveQuantity))
    ensures !NullOrBlank(item.productId) && item.quantity > 0 && item.price.None? ==> r == Err(IllegalArgument(NullAmount))
    ensures r.Ok? ==> r.value == OrderLine(ProductId(item.productId.value), item.productName.GetOr(""),
                                           Quantity(item.quantity), Money(SetScale2(item.price.value), USD))
  {
    var pid :- ProductIds.Of(item.productId);
    var q :- Quantities.Of(item.quantity);
    var price :- MoneyValues.Of(item.price);
    OrderLines.New(Some(pid), item.productName, Some(q), Some(price))
  }

  /** The first item that cannot become a line, as its error. */
  function ItemsError(items: seq<OrderItemCommand>): (r: Option<Error>)
    ensures r.None? <==> forall i :: 0 <= i < |items| ==> ItemLine(items[i]).Ok?
    decreases |items|
  {
    if items == [] then None
    else if ItemLine(items[0]).Err? then Some(ItemLine(items[0]).error)
    else
      var rest := ItemsError(items[1..]);
      assert forall i :: 1 <= i < |items| ==> items[i] == items[1..][i - 1];
      rest
  }

  lemma {:induction false} FirstItemError(items: seq<OrderItemCommand>, i: int)
    requires 0 <= i < |items|
    requires forall k :: 0 <= k < i ==> ItemLine(items[k]).Ok?
    requires ItemLine(items[i]).Err?
    ensures ItemsError(items) == Some(ItemLine(items[i]).error)
    decreases i
  {
    if i > 0 {
      assert forall k :: 0 <= k < i - 1 ==> items[1..][k] == items[k + 1];
      FirstItemError(items[1..], i - 1);
    }
  }

  function ItemLines(items: seq<OrderItemCommand>): (r: seq<OrderLine>)
    requires ItemsError(items).None?
    ensures |r| == |items| && PricedIn(r, USD)
  {
    seq(|items|, i requires 0 <= i < |items| => ItemLine(items[i]).value)
  }

  /** Why `createOrder` throws before anything is saved: the customer first,
      then the items in order. */
  function CreateError(cmd: CreateOrderCommand): Option<Error> {
    if NullOrBlank(cmd.customerId) then Some(IllegalArgument(BlankCustomerId))
    else ItemsError(cmd.items)
  }

  /** Lines built one by one from every item are `ItemLines`. */
  lemma ItemLinesPointwise(items: seq<OrderItemCommand>, lines: seq<OrderLine>)
    requires |lines| == |items|
    requires forall k :: 0 <= k < |items| ==> ItemLine(items[k]) == Ok(lines[k])
    ensures ItemsError(items).None? && lines == ItemLines(items)
  {
  }

  /** The loop of `createOrder` that adds one line per item, in item order;
      the first item that cannot become a line throws. */
  method AddItemLines(order: Order, items: seq<OrderItemCommand>, now: Timestamp) returns (r: Outcome)
    requires order.Valid() && order.status == Pending && order.lines == [] && order.updatedAt == now
    modifies order`lines, order`total, order`updatedAt
    ensures order.Valid() && order.updatedAt == now
    ensures ItemsError(items).Some? ==> r == Fail(ItemsError(items).value)
    ensures ItemsError(items).None? ==> r == Pass && order.lines == ItemLines(items)
  {
    var i := 0;
    while i < |items|
      invariant 0 <= i <= |items|
      invariant order.Valid() && order.updatedAt == now
      invariant |order.lines| == i
      invariant forall k :: 0 <= k < i ==> ItemLine(items[k]) == Ok(order.lines[k])
    {
      var line := ItemLine(items[i]);
      if line.Err? {
        FirstItemError(items, i);
        return Fail(line.error);
      }
      var added := order.AddOrderLine(line.value, now);
      i := i + 1;
    }
    ItemLinesPointwise(items, order.lines);
    r := Pass;
  }

  /** The first half of `createOrder`: a new aggregate with a generated id and
      one line per item, in item order. */
  method BuildOrder(u: Uuid, cmd: CreateOrderCommand, now: Timestamp) returns (r: Result<Order>)
    ensures CreateError(cmd).Some? ==> r == Err(CreateError(cmd).value)
    ensures CreateError(cmd).None? ==>
      && r.Ok? && fresh(r.value) && r.value.Valid()
      && r.value.id == OrderIds.Generate(u) && r.value.customerId.value == cmd.customerId.value
      && r.value.lines == ItemLines(cmd.items) && r.value.status == Pending
      && r.value.createdAt == now && r.value.updatedAt == now
      && r.value.events == [OrderCreated(r.value.id, r.value.customerId, now)]
  {
    var id := OrderIds.Generate(u);
    var customerId :- CustomerIds.Of(cmd.customerId);
    var order := new Order(id, customerId, now);
    var added := AddItemLines(order, cmd.items, now);
    if added.Fail? {
      return Err(added.error);
    }
    r := Ok(order);
  }

  /** The row `createOrder` stores for a command it accepts. */
  function CreatedRow(u: Uuid, cmd: CreateOrderCommand, now: Timestamp): (e: OrderEntity)
    requires CreateError(cmd).None?
    ensures e.id == UuidString(u) && e.customerId == cmd.customerId.value && e.status == Pending
    ensures |e.lines| == |cmd.items|
  {
    var lines := ItemLines(cmd.items);
    OrderEntity(UuidString(u), cmd.customerId.value, Pending, Amount(Money(SumOfSubtotals(lines), USD)), now, now,
                seq(|lines|, i requires 0 <= i < |lines| => LineEntityOf(lines[i])))
  }

  /** The response `createOrder` returns for a command it accepts: pending,
      one item per command item, and the sum of price times quantity as total. */
  function CreatedResponse(u: Uuid, cmd: CreateOrderCommand, now: Timestamp): (r: OrderResponse)
    requires CreateError(cmd).None?
    ensures r.orderId == UuidString(u) && r.customerId == cmd.customerId.value && r.status == "PENDING"
    ensures r.total == Decimal(SumOfSubtotals(ItemLines(cmd.items)), 2)
    ensures |r.items| == |cmd.items|
  {
    var lines := ItemLines(cmd.items);
    OrderResponse(UuidString(u), cmd.customerId.value, "PENDING", Amount(Money(SumOfSubtotals(lines), USD)), now, now,
                  seq(|lines|, i requires 0 <= i < |lines| => LineFromDomain(lines[i])))
  }

  /** What `createOrder` does to the table and the caller: a rejected command
      stores nothing; an accepted one stores exactly its own row once. */
  ghost predicate CreateOutcome(before: map<string, OrderEntity>, after: map<string, OrderEntity>,
                                u: Uuid, cmd: CreateOrderCommand, now: Timestamp, r: Result<OrderResponse>)
  {
    if CreateError(cmd).Some? then r == Err(CreateError(cmd).value) && after == before
    else after == before[UuidString(u) := CreatedRow(u, cmd, now)] && r == Ok(CreatedResponse(u, cmd, now))
  }

  /** The lines of the order built from a command are those of its row. */
  lemma CreatedOrderRow(o: Order, u: Uuid, cmd: CreateOrderCommand, now: Timestamp)
    requires CreateError(cmd).None? && o.Valid()
    requires o.id == OrderIds.Generate(u) && o.customerId.value == cmd.customerId.value
    requires o.lines == ItemLines(cmd.items) && o.status == Pending
    requires o.createdAt == now && o.updatedAt == now
    ensures EntityOf(o) == CreatedRow(u, cmd, now)
  {
    TotalIsSum(o.lines);
  }

  lemma CreatedOrderResponse(saved: Order, u: Uuid, cmd: CreateOrderCommand, now: Timestamp)
    requires CreateError(cmd).None?
    requires IsRebuiltFrom(saved, CreatedRow(u, cmd, now), now)
    ensures FromDomain(saved) == CreatedResponse(u, cmd, now)
  {
    var e := CreatedRow(u, cmd, now);
    var lines := ItemLines(cmd.items);
    forall i | 0 <= i < |lines| ensures RebuildLine(e.lines[i]) == Ok(lines[i]) {
      LineRoundTrip(lines[i]);
    }
    assert RebuiltLines(e.lines) == lines;
  }

  /** `orderRepository.save(order)` for an order built from an accepted command. */
  method SaveCreated(store: OrderStore, order: Order, u: Uuid, cmd: CreateOrderCommand, now: Timestamp)
    returns (saved: Order)
    requires store.Valid() && CreateError(cmd).None? && order.Valid()
    requires order.id == OrderIds.Generate(u) && order.customerId.value == cmd.customerId.value
    requires order.lines == ItemLines(cmd.items) && order.status == Pending
    requires order.createdAt == now && order.updatedAt == now
    modifies store
    ensures store.Valid() && store.rows == old(store.rows)[UuidString(u) := CreatedRow(u, cmd, now)]
    ensures fresh(saved) && IsRebuiltFrom(saved, CreatedRow(u, cmd, now), now)
  {
    CreatedOrderRow(order, u, cmd, now);
    saved := store.Save(order, now);
  }

  /** `createOrder` as written: it publishes the events of the order `save`
      returned, which has none. */
  method CreateOrder(store: OrderStore, log: EventLog, u: Uuid, cmd: CreateOrderCommand, now: Timestamp)
    returns (r: Result<OrderResponse>)
    requires store.Valid()
    modifies store, log
    ensures store.Valid()
    ensures CreateOutcome(old(store.rows), store.rows, u, cmd, now, r)
    ensures log.published == old(log.published)
  {
    var order :- BuildOrder(u, cmd, now);
    var saved := SaveCreated(store, order, u, cmd, now);
    PublishAll(log, saved.DomainEvents());
    saved.ClearDomainEvents();
    CreatedOrderResponse(saved, u, cmd, now);
    r := Ok(FromDomain(saved));
  }

  /** `createOrder` publishing the events of the aggregate it built: exactly
      one creation event for the new order, then the buffer is emptied. */
  method CreateOrderPublishingEvents(store: OrderStore, log: EventLog, u: Uuid, cmd: CreateOrderCommand, now: Timestamp)
    returns (r: Result<OrderResponse>)
    requires store.Valid()
    modifies store, log
    ensures store.Valid()
    ensures CreateOutcome(old(store.rows), store.rows, u, cmd, now, r)
    ensures CreateError(cmd).Some? ==> log.published == old(log.published)
    ensures CreateError(cmd).None? ==>
      log.published == old(log.published) + [OrderCreated(OrderIds.Generate(u), CustomerId(cmd.customerId.value), now)]
  {
    var order :- BuildOrder(u, cmd, now);
    var saved := SaveCreated(store, order, u, cmd, now);
    CreatedOrderResponse(saved, u, cmd, now);
    PublishAll(log, order.DomainEvents());
    order.ClearDomainEvents();
    r := Ok(FromDomain(saved));
  }

  // ---------------------------------------------------------------------------
  // cancelOrder

  /** The row a cancelled order is saved back as: the loaded order's lines and
      total, cancelled, with the load time for both timestamps. */
  function CancelledRow(e: OrderEntity, now: Timestamp): (c: OrderEntity)
    requires RebuildError(e).None?
    ensures c.id == e.id && c.customerId == e.customerId && c.status == Cancelled
    ensures |c.lines| == |e.lines|
  {
    var lines := RebuiltLines(e.lines);
    OrderEntity(e.id, e.customerId, Cancelled, Amount(Money(SumOfSubtotals(lines), USD)), now, now,
                seq(|lines|, i requires 0 <= i < |lines| => LineEntityOf(lines[i])))
  }

  /** Why `cancelOrder` throws once the id is well formed, in the order it
      finds out: no such row, a row that cannot be loaded (which a valid
      store never holds), then `cancel`
      refusing a delivered or an already cancelled order. */
  function CancelError(rows: map<string, OrderEntity>, id: string): Option<Error> {
    if id !in rows then Some(OrderNotFound(id))
    else if RebuildError(rows[id]).Some? then RebuildError(rows[id])
    else if rows[id].status == Delivered then Some(Domain(CancelDelivered))
    else if rows[id].status == Cancelled then Some(Domain(CancelCancelled))
    else None
  }

  /** What `cancelOrder` does to the table and the caller: a blank id, an
      unknown id and an order that cannot be cancelled leave the table alone;
      otherwise the row is saved back cancelled. The reason plays no part. */
  ghost predicate CancelOutcome(before: map<string, OrderEntity>, after: map<string, OrderEntity>,
                                orderId: Option<string>, now: Timestamp, r: Result<OrderResponse>)
  {
    if NullOrBlank(orderId) then r == Err(IllegalArgument(BlankOrderId)) && after == before
    else if CancelError(before, orderId.value).Some? then r == Err(CancelError(before, orderId.value).value) && after == before
    else
      var e := before[orderId.value];
      && after == before[orderId.value := CancelledRow(e, now)]
      && r == Ok(RowResponse(e, now).(status := "CANCELLED"))
  }

  lemma CancelledOrderRow(o: Order, e: OrderEntity, now: Timestamp)
    requires RebuildError(e).None? && o.Valid()
    requires o.id.value == e.id && o.customerId.value == e.customerId
    requires o.lines == RebuiltLines(e.lines) && o.status == Cancelled
    requires o.createdAt == now && o.updatedAt == now
    ensures EntityOf(o) == CancelledRow(e, now)
  {
    TotalIsSum(o.lines);
  }

  lemma CancelledOrderResponse(saved: Order, e: OrderEntity, now: Timestamp)
    requires RebuildError(e).None?
    requires IsRebuiltFrom(saved, CancelledRow(e, now), now)
    ensures FromDomain(saved) == RowResponse(e, now).(status := "CANCELLED")
  {
    var c := CancelledRow(e, now);
    var lines := RebuiltLines(e.lines);
    forall i | 0 <= i < |lines| ensures RebuildLine(c.lines[i]) == Ok(lines[i]) {
      LineRoundTrip(lines[i]);
    }
    assert RebuiltLines(c.lines) == lines;
  }

  /** `findById(..).orElseThrow(..)` followed by `order.cancel()`: the loaded
      order, cancelled, with the cancellation as its only pending event. */
  method LoadAndCancel(store: OrderStore, id: OrderId, now: Timestamp) returns (r: Result<Order>)
    requires store.Valid()
    ensures CancelError(store.rows, id.value).Some? ==> r == Err(CancelError(store.rows, id.value).value)
    ensures CancelError(store.rows, id.value).None? ==>
      && r.Ok? && fresh(r.value) && r.value.Valid()
      && r.value.id == id && r.value.customerId.value == store.rows[id.value].customerId
      && r.value.lines == RebuiltLines(store.rows[id.value].lines) && r.value.status == Cancelled
      && r.value.createdAt == now && r.value.updatedAt == now
      && r.value.events == [NewCancelled(id, now)]
  {
    var found := store.FindById(id, now);
    if found.value.None? {
      return Err(OrderNotFound(id.value));
    }
    var order := found.value.value;
    var cancelled := order.Cancel(now);
    if cancelled.Fail? {
      return Err(cancelled.error);
    }
    r := Ok(order);
  }

  /** `orderRepository.save(order)` for a loaded order that `cancel` accepted. */
  method SaveCancelled(store: OrderStore, order: Order, e: OrderEntity, now: Timestamp) returns (saved: Order)
    requires store.Valid() && RebuildError(e).None? && order.Valid()
    requires order.id.value == e.id && order.customerId.value == e.customerId
    requires order.lines == RebuiltLines(e.lines) && order.status == Cancelled
    requires order.createdAt == now && order.updatedAt == now
    modifies store
    ensures store.Valid() && store.rows == old(store.rows)[e.id := CancelledRow(e, now)]
    ensures fresh(saved) && IsRebuiltFrom(saved, CancelledRow(e, now), now)
  {
    CancelledOrderRow(order, e, now);
    saved := store.Save(order, now);
  }

  /** `cancelOrder(orderId, reason)` as written: the reason is never used, and
      the events published are those of the order `save` returned, which has none. */
  method CancelOrder(store: OrderStore, log: EventLog, orderId: Option<string>, reason: Option<string>, now: Timestamp)
    returns (r: Result<OrderResponse>)
    requires store.Valid()
    modifies store, log
    ensures store.Valid()
    ensures CancelOutcome(old(store.rows), store.rows, orderId, now, r)
    ensures log.published == old(log.published)
  {
    var id :- OrderIds.Of(orderId);
    var order :- LoadAndCancel(store, id, now);
    var e := store.rows[id.value];
    var saved := SaveCancelled(store, order, e, now);
    PublishAll(log, saved.DomainEvents());
    saved.ClearDomainEvents();
    CancelledOrderResponse(saved, e, now);
    r := Ok(FromDomain(saved));
  }

  /** `cancelOrder(orderId)`: the two-argument form with no reason. */
  method CancelOrderWithoutReason(store: OrderStore, log: EventLog, orderId: Option<string>, now: Timestamp)
    returns (r: Result<OrderResponse>)
    requires store.Valid()
    modifies store, log
    ensures store.Valid()
    ensures CancelOutcome(old(store.rows), store.rows, orderId, now, r)
    ensures log.published == old(log.published)
  {
    r := CancelOrder(store, log, orderId, None, now);
  }

  /** `cancelOrder` publishing the events of the aggregate it cancelled: exactly
      one cancellation event, without a reason whatever reason was given. */
  method CancelOrderPublishingEvents(store: OrderStore, log: EventLog, orderId: Option<string>, reason: Option<string>, now: Timestamp)
    returns (r: Result<OrderResponse>)
    requires store.Valid()
    modifies store, log
    ensures store.Valid()
    ensures CancelOutcome(old(store.rows), store.rows, orderId, now, r)
    ensures r.Err? ==> log.published == old(log.published)
    ensures r.Ok? ==> log.published == old(log.published) + [OrderCancelled(OrderId(orderId.value), now, None)]
  {
    var id :- OrderIds.Of(orderId);
    var order :- LoadAndCancel(store, id, now);
    var e := store.rows[id.value];
    var saved := SaveCancelled(store, order, e, now);
    PublishAll(log, order.DomainEvents());
    order.ClearDomainEvents();
    CancelledOrderResponse(saved, e, now);
    r := Ok(FromDomain(saved));
  }
}
