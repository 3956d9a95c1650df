/** The `Order` aggregate root: its lines, its total, its status machine and
    its buffer of pending domain events. */
module Orders {
  import opened Results
  import opened JavaInts
  import opened Timestamps
  import opened MoneyValues
  import opened OrderIds
  import opened CustomerIds
  import opened ProductIds
  import opened OrderLines
  import opened OrderStatuses
  import opened Events

  // ---------------------------------------------------------------------------
  // The total: `orderLines.stream().map(OrderLine::getSubtotal).reduce(Money.ZERO, Money::add)`

  /** The sequential left fold of `Money.add` over the subtotals, from `acc`;
      the first subtotal in another currency than the running sum throws. */
  function FoldFrom(acc: Money, lines: seq<OrderLine>): Result<Money>
    decreases |lines|
  {
    if lines == [] then Ok(acc)
    else
      match Add(acc, Subtotal(lines[0]))
      case Err(e) => Err(e)
      case Ok(next) => FoldFrom(next, lines[1..])
  }

  /** `recalculateTotal`'s fold, starting from `Money.ZERO`. */
  function RecalculatedTotal(lines: seq<OrderLine>): Result<Money> {
    FoldFrom(Zero, lines)
  }

  /** Every line is priced in currency `c`. */
  predicate PricedIn(lines: seq<OrderLine>, c: Currency) {
    forall i :: 0 <= i < |lines| ==> lines[i].unitPrice.currency == c
  }

  /** The sum of the subtotals, in hundredths: the reference definition of the total. */
  function SumOfSubtotals(lines: seq<OrderLine>): int {
    if lines == [] then 0 else Subtotal(lines[0]).cents + SumOfSubtotals(lines[1..])
  }

  /** The fold adds every subtotal to the accumulator when all lines share its
      currency, and otherwise fails with a currency mismatch. */
  lemma {:induction false} FoldIsSum(acc: Money, lines: seq<OrderLine>)
    ensures FoldFrom(acc, lines) ==
      if PricedIn(lines, acc.currency) then Ok(Money(acc.cents + SumOfSubtotals(lines), acc.currency))
      else Err(IllegalArgument(CurrencyMismatch))
    decreases |lines|
  {
    if lines != [] {
      var s := Subtotal(lines[0]);
      if s.currency == acc.currency {
        var next := Money(acc.cents + s.cents, acc.currency);
        FoldIsSum(next, lines[1..]);
        assert PricedIn(lines, acc.currency) <==> PricedIn(lines[1..], acc.currency) by {
          if PricedIn(lines[1..], acc.currency) {
            forall i | 0 <= i < |lines| ensures lines[i].unitPrice.currency == acc.currency {
              if i > 0 { assert lines[i] == lines[1..][i - 1]; }
            }
          }
        }
      } else {
        assert !PricedIn(lines, acc.currency) by { assert lines[0].unitPrice.currency != acc.currency; }
      }
    }
  }

  /** The recomputed total is the sum of the subtotals in US dollars, or a
      currency mismatch when some line is priced in another currency. */
  lemma TotalIsSum(lines: seq<OrderLine>)
    ensures RecalculatedTotal(lines) ==
      if PricedIn(lines, USD) then Ok(Money(SumOfSubtotals(lines), USD))
      else Err(IllegalArgument(CurrencyMismatch))
  {
    FoldIsSum(Zero, lines);
  }

  lemma {:induction false} SumOfConcat(a: seq<OrderLine>, b: seq<OrderLine>)
    ensures SumOfSubtotals(a + b) == SumOfSubtotals(a) + SumOfSubtotals(b)
    decreases |a|
  {
    if a != [] {
      assert (a + b)[1..] == a[1..] + b;
      SumOfConcat(a[1..], b);
    } else {
      assert a + b == b;
    }
  }

  /** Taking the line at `k` out of the sequence takes its subtotal out of the sum. */
  lemma SumWithoutLine(b: seq<OrderLine>, k: int)
    requires 0 <= k < |b|
    ensures SumOfSubtotals(b) == Subtotal(b[k]).cents + SumOfSubtotals(b[..k] + b[k + 1..])
  {
    assert b[..k] + b[k..] == b;
    SumOfConcat(b[..k], b[k..]);
    assert b[k..][1..] == b[k + 1..];
    SumOfConcat(b[..k], b[k + 1..]);
  }

  /** Taking the line at `k` out of the sequence takes one copy out of its multiset. */
  lemma MultisetWithoutLine(b: seq<OrderLine>, k: int)
    requires 0 <= k < |b|
    ensures multiset(b) == multiset(b[..k] + b[k + 1..]) + multiset{b[k]}
  {
    assert b == b[..k] + [b[k]] + b[k + 1..];
  }

  lemma MultisetWithoutHead(a: seq<OrderLine>)
    requires a != []
    ensures multiset(a) == multiset(a[1..]) + multiset{a[0]}
  {
    assert a == [a[0]] + a[1..];
  }

  lemma MultisetCancel(p: multiset<OrderLine>, q: multiset<OrderLine>, x: OrderLine)
    requires p + multiset{x} == q + multiset{x}
    ensures p == q
  {
    assert forall y :: p[y] == (p + multiset{x})[y] - multiset{x}[y];
  }

  /** A line that occurs in the multiset of a sequence occurs at some index. */
  lemma IndexOfMember(b: seq<OrderLine>, x: OrderLine) returns (k: int)
    requires x in multiset(b)
    ensures 0 <= k < |b| && b[k] == x
  {
    assert x in b;
    k :| 0 <= k < |b| && b[k] == x;
  }

  /** Lines with the same multiset have the same sum of subtotals. */
  lemma {:induction false} SumOfPermutation(a: seq<OrderLine>, b: seq<OrderLine>)
    requires multiset(a) == multiset(b)
    ensures SumOfSubtotals(a) == SumOfSubtotals(b)
    decreases |a|
  {
    if a != [] {
      var x := a[0];
      var k := IndexOfMember(b, x);
      var rest := b[..k] + b[k + 1..];
      MultisetWithoutHead(a);
      MultisetWithoutLine(b, k);
      MultisetCancel(multiset(a[1..]), multiset(rest), x);
      SumOfPermutation(a[1..], rest);
      SumWithoutLine(b, k);
    }
  }

  /** The total does not depend on the order in which the lines were added. */
  lemma TotalIndependentOfLineOrder(a: seq<OrderLine>, b: seq<OrderLine>)
    requires multiset(a) == multiset(b)
    ensures RecalculatedTotal(a) == RecalculatedTotal(b)
  {
    TotalIsSum(a);
    TotalIsSum(b);
    SumOfPermutation(a, b);
    assert PricedIn(a, USD) <==> PricedIn(b, USD) by {
      forall i | 0 <= i < |a| ensures a[i] in multiset(b) { assert a[i] in multiset(a); }
      forall i | 0 <= i < |b| ensures b[i] in multiset(a) { assert b[i] in multiset(b); }
    }
  }

  /** 2 x 10.00 + 3 x 5.00 is 35.00. */
  lemma TotalExample(p1: ProductId, p2: ProductId)
    ensures RecalculatedTotal([OrderLine(p1, "Product 1", Quantities.Quantity(2), Money(1000, USD)),
                               OrderLine(p2, "Product 2", Quantities.Quantity(3), Money(500, USD))])
            == Ok(Money(3500, USD))
  {
    var ls := [OrderLine(p1, "Product 1", Quantities.Quantity(2), Money(1000, USD)),
               OrderLine(p2, "Product 2", Quantities.Quantity(3), Money(500, USD))];
    TotalIsSum(ls);
    assert ls[1..] == [ls[1]] && ls[1..][1..] == [];
    assert SumOfSubtotals(ls[1..][1..]) == 0;
    assert SumOfSubtotals(ls[1..]) == 1500;
    assert SumOfSubtotals(ls) == 3500;
  }

  // ---------------------------------------------------------------------------
  // `orderLines.remove(orderLine)`: `ArrayList.remove(Object)` drops the first
  // element the argument `equals`, and `OrderLine.equals` compares products.

  /** The position of the first line for product `p`, or `|lines|` when there is none. */
  function FirstIndexOf(lines: seq<OrderLine>, p: ProductId): (k: nat)
    ensures k <= |lines|
    ensures k < |lines| ==> lines[k].productId == p
    ensures forall j :: 0 <= j < k ==> lines[j].productId != p
    decreases |lines|
  {
    if lines == [] then 0
    else if OrderLines.Equals(lines[0], OrderLine(p, "", Quantities.Quantity(1), Zero)) then 0
    else 1 + FirstIndexOf(lines[1..], p)
  }

  /** The lines after `remove(line)`: the first line equal to `line` is gone,
      and nothing changes when there is none. */
  function RemoveFirst(lines: seq<OrderLine>, line: OrderLine): (r: seq<OrderLine>)
    ensures (forall j :: 0 <= j < |lines| ==> lines[j].productId != line.productId) ==> r == lines
    ensures (exists j :: 0 <= j < |lines| && lines[j].productId == line.productId) ==>
      var k := FirstIndexOf(lines, line.productId);
      && k < |lines|
      && r == lines[..k] + lines[k + 1..]
      && multiset(r) + multiset{lines[k]} == multiset(lines)
  {
    var k := FirstIndexOf(lines, line.productId);
    if k == |lines| then lines
    else
      assert lines == lines[..k] + [lines[k]] + lines[k + 1..];
      lines[..k] + lines[k + 1..]
  }

  // ---------------------------------------------------------------------------

  class Order {
    const id: OrderId
    const customerId: CustomerId
    var lines: seq<OrderLine>
    var status: OrderStatus
    var total: Money
    const createdAt: Timestamp
    var updatedAt: Timestamp
    var events: seq<DomainEvent>

    /** An event this order raises: its creation event, or a cancellation
        without a reason. */
    ghost predicate OwnEvent(e: DomainEvent)
      reads this
    {
      || e == OrderCreated(id, customerId, createdAt)
      || (e.OrderCancelled? && e.orderId == id && e.reason.None?)
    }

    /** The aggregate's invariant: the total is in US dollars and equals the
        fold of the lines whenever that fold succeeds; an order that has been
        confirmed (and not cancelled) has lines; every pending event is one the
        order raised itself. */
    ghost predicate Valid()
      reads this
    {
      && total.currency == USD
      && (RecalculatedTotal(lines).Ok? ==> total == RecalculatedTotal(lines).value)
      && (status == Confirmed || status == Shipped || status == Delivered ==> lines != [])
      && (forall i :: 0 <= i < |events| ==> OwnEvent(events[i]))
    }

    /** `new Order(id, customerId)`: pending, no lines, zero total, one creation event. */
    constructor (id: OrderId, customerId: CustomerId, now: Timestamp)
      ensures Valid()
      ensures this.id == id && this.customerId == customerId
      ensures lines == [] && status == Pending && total == Zero
      ensures createdAt == now && updatedAt == now
      ensures events == [OrderCreated(id, customerId, now)]
    {
      this.id := id;
      this.customerId := customerId;
      lines := [];
      status := Pending;
      total := Zero;
      createdAt := now;
      updatedAt := now;
      events := [];
      new;
      RegisterEvent(OrderCreated(id, customerId, now));
    }

    method RegisterEvent(e: DomainEvent)
      requires Valid() && OwnEvent(e)
      modifies this`events
      ensures Valid()
      ensures events == old(events) + [e]
    {
      events := events + [e];
    }

    /** `getDomainEvents`: a read-only view of the pending events. */
    function DomainEvents(): (r: seq<DomainEvent>)
      reads this
      ensures r == events
      ensures Valid() ==> forall i :: 0 <= i < |r| ==> OwnEvent(r[i])
    {
      events
    }

    /** `clearDomainEvents`. */
    method ClearDomainEvents()
      requires Valid()
      modifies this`events
      ensures Valid()
      ensures events == []
    {
      events := [];
    }

    /** `recalculateTotal`: assigns the fold, or leaves the total alone when it throws. */
    method RecalculateTotal() returns (r: Outcome)
      requires total.currency == USD
      modifies this`total
      ensures total.currency == USD
      ensures RecalculatedTotal(lines).Ok? ==> r == Pass && total == RecalculatedTotal(lines).value
      ensures RecalculatedTotal(lines).Err? ==> r == Fail(RecalculatedTotal(lines).error) && total == old(total)
    {
      TotalIsSum(lines);
      var t := RecalculatedTotal(lines);
      if t.Err? {
        return Fail(t.error);
      }
      total := t.value;
      r := Pass;
    }

    /** `addOrderLine`: only while pending. The line is appended before the
        total is recomputed, so a line in another currency stays in the list
        while the total and the update time keep their old values. */
    method AddOrderLine(line: OrderLine, now: Timestamp) returns (r: Outcome)
      requires Valid()
      modifies this`lines, this`total, this`updatedAt
      ensures Valid()
      ensures old(status) != Pending ==>
        r == Fail(Domain(AddToNonPending)) && lines == old(lines) && total == old(total) && updatedAt == old(updatedAt)
      ensures old(status) == Pending ==> lines == old(lines) + [line]
      ensures old(status) == Pending && RecalculatedTotal(lines).Ok? ==>
        r == Pass && total == RecalculatedTotal(lines).value && updatedAt == now
      ensures old(status) == Pending && RecalculatedTotal(lines).Err? ==>
        r == Fail(RecalculatedTotal(lines).error) && total == old(total) && updatedAt == old(updatedAt)
    {
      if status != Pending {
        return Fail(Domain(AddToNonPending));
      }
      lines := lines + [line];
      r := RecalculateTotal();
      if r.Fail? {
        return;
      }
      updatedAt := now;
    }

    /** `removeOrderLine`: only while pending; drops the first line for the same product. */
    method RemoveOrderLine(line: OrderLine, now: Timestamp) returns (r: Outcome)
      requires Valid()
      modifies this`lines, this`total, this`updatedAt
      ensures Valid()
      ensures old(status) != Pending ==>
        r == Fail(Domain(RemoveFromNonPending)) && lines == old(lines) && total == old(total) && updatedAt == old(updatedAt)
      ensures old(status) == Pending ==> lines == RemoveFirst(old(lines), line)
      ensures old(status) == Pending && RecalculatedTotal(lines).Ok? ==>
        r == Pass && total == RecalculatedTotal(lines).value && updatedAt == now
      ensures old(status) == Pending && RecalculatedTotal(lines).Err? ==>
        r == Fail(RecalculatedTotal(lines).error) && total == old(total) && updatedAt == old(updatedAt)
    {
      if status != Pending {
        return Fail(Domain(RemoveFromNonPending));
      }
      lines := RemoveFirst(lines, line);
      r := RecalculateTotal();
      if r.Fail? {
        return;
      }
      updatedAt := now;
    }

    /** `confirm`: the status is checked before the lines. */
    method Confirm(now: Timestamp) returns (r: Outcome)
      requires Valid()
      modifies this`status, this`updatedAt
      ensures Valid()
      ensures old(status) != Pending ==>
        r == Fail(Domain(ConfirmNonPending)) && status == old(status) && updatedAt == old(updatedAt)
      ensures old(status) == Pending && lines == [] ==>
        r == Fail(Domain(ConfirmEmpty)) && status == old(status) && updatedAt == old(updatedAt)
      ensures old(status) == Pending && lines != [] ==>
        r == Pass && status == Confirmed && updatedAt == now
    {
      if status != Pending {
        return Fail(Domain(ConfirmNonPending));
      }
      if lines == [] {
        return Fail(Domain(ConfirmEmpty));
      }
      status := Confirmed;
      updatedAt := now;
      r := Pass;
    }

    /** `ship`: only from confirmed. */
    method Ship(now: Timestamp) returns (r: Outcome)
      requires Valid()
      modifies this`status, this`updatedAt
      ensures Valid()
      ensures old(status) != Confirmed ==>
        r == Fail(Domain(ShipNonConfirmed)) && status == old(status) && updatedAt == old(updatedAt)
      ensures old(status) == Confirmed ==> r == Pass && status == Shipped && updatedAt == now
    {
      if status != Confirmed {
        return Fail(Domain(ShipNonConfirmed));
      }
      status := Shipped;
      updatedAt := now;
      r := Pass;
    }

    /** `deliver`: only from shipped. */
    method Deliver(now: Timestamp) returns (r: Outcome)
      requires Valid()
      modifies this`status, this`updatedAt
      ensures Valid()
      ensures old(status) != Shipped ==>
        r == Fail(Domain(DeliverNonShipped)) && status == old(status) && updatedAt == old(updatedAt)
      ensures old(status) == Shipped ==> r == Pass && status == Delivered && updatedAt == now
    {
      if status != Shipped {
        return Fail(Domain(DeliverNonShipped));
      }
      status := Delivered;
      updatedAt := now;
      r := Pass;
    }

    /** `cancel`: refused once delivered or cancelled, allowed from every other
        status (shipped included); raises a cancellation event without a reason. */
    method Cancel(now: Timestamp) returns (r: Outcome)
      requires Valid()
      modifies this`status, this`updatedAt, this`events
      ensures Valid()
      ensures old(status) == Delivered ==>
        r == Fail(Domain(CancelDelivered)) && status == old(status) && updatedAt == old(updatedAt) && events == old(events)
      ensures old(status) == Cancelled ==>
        r == Fail(Domain(CancelCancelled)) && status == old(status) && updatedAt == old(updatedAt) && events == old(events)
      ensures IsCancellable(old(status)) ==>
        r == Pass && status == Cancelled && updatedAt == now && events == old(events) + [NewCancelled(id, now)]
    {
      if status == Delivered {
        return Fail(Domain(CancelDelivered));
      }
      if status == Cancelled {
        return Fail(Domain(CancelCancelled));
      }
      status := Cancelled;
      updatedAt := now;
      RegisterEvent(NewCancelled(id, now));
      r := Pass;
    }
  }

  /** `Order.equals`: two aggregates are equal exactly when their ids are,
      whatever their lines, status, total and events; equal orders hash alike. */
  predicate SameOrder(a: Order, b: Order)
    ensures SameOrder(a, b) <==> a.id.value == b.id.value
    ensures SameOrder(a, b) ==> OrderHash(a) == OrderHash(b)
  {
    a == b || OrderIds.Equals(a.id, b.id)
  }

  /** `Order.hashCode`: the id's hash. */
  function OrderHash(o: Order): Int32 {
    OrderIds.Hash(o.id)
  }

  /** No event an order holds is a status-changed event, and every
      cancellation event it holds has no reason. */
  lemma OnlyCreatedAndCancelledEvents(o: Order, i: int)
    requires o.Valid() && 0 <= i < |o.events|
    ensures !o.events[i].OrderStatusChanged?
    ensures o.events[i].OrderCancelled? ==> o.events[i].reason.None?
    ensures o.events[i].orderId == o.id
  {
    assert o.OwnEvent(o.events[i]);
  }

  /** The walk through the lifecycle: two lines make 35.00, the order is
      confirmed, shipped and delivered, and can then no longer be cancelled. */
  method Lifecycle(id: OrderId, customer: CustomerId, p1: ProductId, p2: ProductId, t: Timestamp)
    returns (total: Money, last: OrderStatus, refused: Outcome, pending: seq<DomainEvent>)
    ensures total == Money(3500, USD) && last == Delivered
    ensures refused == Fail(Domain(CancelDelivered)) && pending == []
  {
    var order := new Order(id, customer, t);
    assert |order.events| == 1 && EventType(order.events[0]) == "OrderCreated";
    var r := order.AddOrderLine(OrderLine(p1, "Product 1", Quantities.Quantity(2), Money(1000, USD)), t);
    assert order.lines == [OrderLine(p1, "Product 1", Quantities.Quantity(2), Money(1000, USD))];
    r := order.AddOrderLine(OrderLine(p2, "Product 2", Quantities.Quantity(3), Money(500, USD)), t);
    TotalExample(p1, p2);
    assert order.lines == [OrderLine(p1, "Product 1", Quantities.Quantity(2), Money(1000, USD)),
                           OrderLine(p2, "Product 2", Quantities.Quantity(3), Money(500, USD))];
    assert r == Pass && order.total == Money(3500, USD);
    total := order.total;
    r := order.Confirm(t);
    assert order.status == Confirmed;
    r := order.Ship(t);
    r := order.Deliver(t);
    assert order.status == Delivered;
    r := order.Cancel(t);
    assert r == Fail(Domain(CancelDelivered));
    refused, last := r, order.status;
    order.ClearDomainEvents();
    pending := order.DomainEvents();
  }
}
