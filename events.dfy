/** `java.time.LocalDateTime`, as a point on a totally ordered time line.
    `LocalDateTime.now()` is never called in the model: each operation that reads
    the clock receives the reading as a parameter. */
module Timestamps {
  type Timestamp = int

  predicate IsBefore(a: Timestamp, b: Timestamp) { a < b }

  predicate IsAfter(a: Timestamp, b: Timestamp) { a > b }
}

/** The domain events an order can raise, with their type tags. */
module Events {
  import opened Results
  import opened JavaStrings
  import opened Timestamps
  import opened OrderIds
  import opened CustomerIds
  import opened OrderStatuses

  datatype DomainEvent =
    | OrderCreated(orderId: OrderId, customerId: CustomerId, occurredOn: Timestamp)
    | OrderCancelled(orderId: OrderId, occurredOn: Timestamp, reason: Option<string>)
    | OrderStatusChanged(orderId: OrderId, previousStatus: OrderStatus, newStatus: OrderStatus, occurredOn: Timestamp)

  /** The two-argument `OrderCancelledEvent` constructor: no reason. */
  function NewCancelled(orderId: OrderId, occurredOn: Timestamp): (e: DomainEvent)
    ensures e.OrderCancelled? && e.reason.None?
    ensures e.orderId == orderId && e.occurredOn == occurredOn
  {
    OrderCancelled(orderId, occurredOn, None)
  }

  /** `getEventType`: a constant per event class. */
  function EventType(e: DomainEvent): string {
    match e
    case OrderCreated(_, _, _) => "OrderCreated"
    case OrderCancelled(_, _, _) => "OrderCancelled"
    case OrderStatusChanged(_, _, _, _) => "OrderStatusChanged"
  }

  /** The type tag tells the three kinds of event apart. */
  lemma EventTypeIdentifiesKind(a: DomainEvent, b: DomainEvent)
    ensures EventType(a) == EventType(b) <==>
      (a.OrderCreated? && b.OrderCreated?) || (a.OrderCancelled? && b.OrderCancelled?)
      || (a.OrderStatusChanged? && b.OrderStatusChanged?)
  {
  }

  /** The routing key the publisher sends an event with: its type, lower-cased. */
  function RoutingKey(e: DomainEvent): string {
    ToLower(EventType(e))
  }

  /** The binding keys of the created and cancelled queues. */
  const CreatedBindingKey: string := "ordercreated"
  const CancelledBindingKey: string := "ordercancelled"

  /** Created events reach the created queue and cancelled events the cancelled
      queue; a status-changed event matches neither binding. */
  lemma RoutingKeysMatchBindings(e: DomainEvent)
    ensures e.OrderCreated? ==> RoutingKey(e) == CreatedBindingKey
    ensures e.OrderCancelled? ==> RoutingKey(e) == CancelledBindingKey
    ensures e.OrderStatusChanged? ==> RoutingKey(e) != CreatedBindingKey && RoutingKey(e) != CancelledBindingKey
  {
    var k := RoutingKey(e);
    match e
    case OrderCreated(_, _, _) =>
      assert k == CreatedBindingKey;
    case OrderCancelled(_, _, _) =>
      assert k == CancelledBindingKey;
    case OrderStatusChanged(_, _, _, _) =>
      assert |k| != |CreatedBindingKey| && |k| != |CancelledBindingKey|;
  }
}
