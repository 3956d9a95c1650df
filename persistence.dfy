/** `OrderRepositoryAdapter`'s mapping between the aggregate and its stored
    rows, and the table of rows itself. `toEntity` copies an order into plain
    records; `toDomain` rebuilds an aggregate from them by replaying the
    aggregate's own operations, so it takes fresh timestamps, re-prices every
    line in US dollars and ends with no pending events. */
module Persistence {
  import opened Results
  import opened JavaInts
  import opened JavaStrings
  import opened Decimals
  import opened Timestamps
  import opened MoneyValues
  import opened Quantities
  import opened OrderIds
  import opened CustomerIds
  import opened ProductIds
  import opened OrderLines
  import opened OrderStatuses
  import opened Events
  import opened Orders

  /** An `order_lines` row; the product name column is nullable. */
  datatype LineEntity = LineEntity(
    productId: string, productName: Option<string>, quantity: Int32,
    unitPrice: Decimal, subtotal: Decimal)

  /** An `orders` row with its lines. */
  datatype OrderEntity = OrderEntity(
    id: string, customerId: string, status: OrderStatus, total: Decimal,
    createdAt: Timestamp, updatedAt: Timestamp, lines: seq<LineEntity>)

  // ---------------------------------------------------------------------------
  // toEntity

  /** The row `toEntity` writes for one line: the currency is not stored. */
  function LineEntityOf(line: OrderLine): (r: LineEntity)
    ensures r.productId == line.productId.value && r.productName == Some(line.productName)
    ensures r.quantity == line.quantity.value
    ensures SetScale2(r.unitPrice) == line.unitPrice.cents
    ensures r.subtotal.scale == 2 && r.subtotal.unscaled == line.unitPrice.cents * line.quantity.value
  {
    LineEntity(line.productId.value, Some(line.productName), line.quantity.value,
               Amount(line.unitPrice), Amount(Subtotal(line)))
  }

  /** The rows `toEntity` writes for an order: everything the aggregate holds
      except its pending events and the currencies. */
  function EntityOf(o: Order): (e: OrderEntity)
    reads o
    ensures e.id == o.id.value && e.customerId == o.customerId.value && e.status == o.status
    ensures e.total == Amount(o.total) && e.createdAt == o.createdAt && e.updatedAt == o.updatedAt
    ensures |e.lines| == |o.lines|
    ensures forall i :: 0 <= i < |o.lines| ==> e.lines[i] == LineEntityOf(o.lines[i])
  {
    OrderEntity(o.id.value, o.customerId.value, o.status, Amount(o.total), o.createdAt, o.updatedAt,
                seq(|o.lines|, i requires 0 <= i < |o.lines| reads o => LineEntityOf(o.lines[i])))
  }

  /** `toEntity`: the status goes through `OrderStatusEntity.valueOf(name())`,
      and one line row is appended per line, in order. */
  method ToEntity(o: Order) returns (e: OrderEntity)
    ensures e == EntityOf(o)
  {
    ValueOfName(o.status);
    var status := ValueOf(Name(o.status)).value;
    e := OrderEntity(o.id.value, o.customerId.value, status, Amount(o.total), o.createdAt, o.updatedAt, []);
    var i := 0;
    while i < |o.lines|
      invariant 0 <= i <= |o.lines|
      invariant e.id == o.id.value && e.customerId == o.customerId.value && e.status == o.status
      invariant e.total == Amount(o.total) && e.createdAt == o.createdAt && e.updatedAt == o.updatedAt
      invariant |e.lines| == i
      invariant forall k :: 0 <= k < i ==> e.lines[k] == LineEntityOf(o.lines[k])
    {
      e := e.(lines := e.lines + [LineEntityOf(o.lines[i])]);
      i := i + 1;
    }
  }

  // ---------------------------------------------------------------------------
  // toDomain

  /** `new OrderLine(ProductId.of(..), name, Quantity.of(..), Money.of(..))`
      for one stored row: the product is checked before the quantity; the
      stored subtotal is ignored and the price is taken in US dollars. */
  function RebuildLine(le: LineEntity): (r: Result<OrderLine>)
    ensures r.Ok? <==> !IsBlank(le.productId) && le.quantity > 0
    ensures IsBlank(le.productId) ==> r == Err(IllegalArgument(BlankProductId))
    ensures !IsBlank(le.productId) && le.quantity <= 0 ==> r == Err(IllegalArgument(NonPositiveQuantity))
    ensures r.Ok? ==> r.value == OrderLine(ProductId(le.productId), le.productName.GetOr(""),
                                           Quantity(le.quantity), Money(SetScale2(le.unitPrice), USD))
  {
    var pid :- ProductIds.Of(Some(le.productId));
    var q :- Quantities.Of(le.quantity);
    var price := MoneyValues.Of(Some(le.unitPrice)).value;
    OrderLines.New(Some(pid), le.productName, Some(q), Some(price))
  }

  /** The first line row that cannot be rebuilt, as its error. */
  function LinesError(les: seq<LineEntity>): (r: Option<Error>)
    ensures r.None? <==> forall i :: 0 <= i < |les| ==> RebuildLine(les[i]).Ok?
    decreases |les|
  {
    if les == [] then None
    else if RebuildLine(les[0]).Err? then Some(RebuildLine(les[0]).error)
    else
      var rest := LinesError(les[1..]);
      assert forall i :: 1 <= i < |les| ==> les[i] == les[1..][i - 1];
      rest
  }

  /** The rebuilt lines, in row order. */
  function RebuiltLines(les: seq<LineEntity>): (r: seq<OrderLine>)
    requires LinesError(les).None?
    ensures |r| == |les| && PricedIn(r, USD)
  {
    seq(|les|, i requires 0 <= i < |les| => RebuildLine(les[i]).value)
  }

  /** The row's status needs `confirm`, which refuses an order without lines. */
  predicate NeedsConfirm(s: OrderStatus) {
    s == Confirmed || s == Shipped || s == Delivered
  }

  /** Why `toDomain` throws on a row, in the order it checks: the order id,
      the customer id, each line in turn, then the replayed `confirm`. */
  function RebuildError(e: OrderEntity): Option<Error> {
    if IsBlank(e.id) then Some(IllegalArgument(BlankOrderId))
    else if IsBlank(e.customerId) then Some(IllegalArgument(BlankCustomerId))
    else if LinesError(e.lines).Some? then LinesError(e.lines)
    else if NeedsConfirm(e.status) && e.lines == [] then Some(Domain(ConfirmEmpty))
    else None
  }

  /** `o` is what `toDomain` rebuilds from `e` at time `now`: the stored ids,
      lines and status, a total that is the sum of the lines, both timestamps
      set to `now`, and no pending events. */
  ghost predicate IsRebuiltFrom(o: Order, e: OrderEntity, now: Timestamp)
    reads o
  {
    && RebuildError(e).None?
    && o.Valid()
    && o.id.value == e.id && o.customerId.value == e.customerId
    && o.lines == RebuiltLines(e.lines) && o.status == e.status
    && o.total == Money(SumOfSubtotals(o.lines), USD)
    && o.createdAt == now && o.updatedAt == now
    && o.events == []
  }

  lemma {:induction false} FirstLineError(les: seq<LineEntity>, i: int)
    requires 0 <= i < |les|
    requires forall k :: 0 <= k < i ==> RebuildLine(les[k]).Ok?
    requires RebuildLine(les[i]).Err?
    ensures LinesError(les) == Some(RebuildLine(les[i]).error)
    decreases i
  {
    if i > 0 {
      assert forall k :: 0 <= k < i - 1 ==> les[1..][k] == les[k + 1];
      FirstLineError(les[1..], i - 1);
    }
  }

  /** The loop of `toDomain` that adds the stored lines to a new order, in
      row order; the first row that cannot be rebuilt throws. */
  method AddStoredLines(order: Order, les: seq<LineEntity>, now: Timestamp) returns (r: Outcome)
    requires order.Valid() && order.status == Pending && order.lines == [] && order.updatedAt == now
    modifies order`lines, order`total, order`updatedAt
    ensures order.Valid() && order.updatedAt == now
    ensures LinesError(les).Some? ==> r == Fail(LinesError(les).value)
    ensures LinesError(les).None? ==> r == Pass && order.lines == RebuiltLines(les)
  {
    var i := 0;
    while i < |les|
      invariant 0 <= i <= |les|
      invariant order.Valid() && order.updatedAt == now
      invariant |order.lines| == i
      invariant forall k :: 0 <= k < i ==> RebuildLine(les[k]) == Ok(order.lines[k])
    {
      var rebuilt := RebuildLine(les[i]);
      if rebuilt.Err? {
        FirstLineError(les, i);
        return Fail(rebuilt.error);
      }
      var added := order.AddOrderLine(rebuilt.value, now);
      i := i + 1;
    }
    RebuiltPointwise(les, order.lines);
    r := Pass;
  }

  /** Lines rebuilt one by one from every row are `RebuiltLines`. */
  lemma RebuiltPointwise(les: seq<LineEntity>, lines: seq<OrderLine>)
    requires |lines| == |les|
    requires forall k :: 0 <= k < |les| ==> RebuildLine(les[k]) == Ok(lines[k])
    ensures LinesError(les).None? && lines == RebuiltLines(les)
  {
  }

  /** The `switch` of `toDomain` that walks a pending order to the stored status. */
  method ReplayStatus(order: Order, s: OrderStatus, now: Timestamp) returns (r: Outcome)
    requires order.Valid() && order.status == Pending && order.updatedAt == now
    modifies order`status, order`updatedAt, order`events
    ensures order.Valid() && order.updatedAt == now
    ensures NeedsConfirm(s) && order.lines == [] ==> r == Fail(Domain(ConfirmEmpty))
    ensures !(NeedsConfirm(s) && order.lines == []) ==> r == Pass && order.status == s
  {
    match s {
      case Pending =>
      case Confirmed =>
        r := order.Confirm(now);
      case Shipped =>
        r := order.Confirm(now);
        if r.Fail? {
          return;
        }
        r := order.Ship(now);
      case Delivered =>
        r := order.Confirm(now);
        if r.Fail? {
          return;
        }
        r := order.Ship(now);
        r := order.Deliver(now);
      case Cancelled =>
        r := order.Cancel(now);
    }
    if s == Pending {
      r := Pass;
    }
  }

  /** `toDomain`: a new order, each row's line added in order, the stored
      status reached by replaying `confirm`, `ship`, `deliver` or `cancel`,
      and the events this raised cleared. */
  method ToDomain(e: OrderEntity, now: Timestamp) returns (r: Result<Order>)
    ensures RebuildError(e).Some? ==> r == Err(RebuildError(e).value)
    ensures RebuildError(e).None? ==> r.Ok? && fresh(r.value) && IsRebuiltFrom(r.value, e, now)
  {
    var id :- OrderIds.Of(Some(e.id));
    var customerId :- CustomerIds.Of(Some(e.customerId));
    var order := new Order(id, customerId, now);
    var added := AddStoredLines(order, e.lines, now);
    if added.Fail? {
      return Err(added.error);
    }
    TotalIsSum(order.lines);
    var replayed := ReplayStatus(order, e.status, now);
    if replayed.Fail? {
      return Err(replayed.error);
    }
    order.ClearDomainEvents();
    r := Ok(order);
  }

  // ---------------------------------------------------------------------------
  // Round trip

  /** A line with its price moved to US dollars, as the round trip returns it. */
  function InUsd(line: OrderLine): (r: OrderLine)
    ensures r.unitPrice.currency == USD
    ensures line.unitPrice.currency == USD ==> r == line
  {
    line.(unitPrice := Money(line.unitPrice.cents, USD))
  }

  /** A line survives storage except for its currency. */
  lemma LineRoundTrip(line: OrderLine)
    ensures RebuildLine(LineEntityOf(line)) == Ok(InUsd(line))
  {
    assert !IsBlank(line.productId.value);
  }

  /** Every row `toEntity` writes for a valid order can be rebuilt, with its
      ids, status and lines (re-priced in US dollars); when every line was
      already in US dollars the lines and the total come back unchanged. */
  lemma EntityRoundTrip(o: Order)
    requires o.Valid()
    ensures RebuildError(EntityOf(o)).None?
    ensures |RebuiltLines(EntityOf(o).lines)| == |o.lines|
    ensures forall i :: 0 <= i < |o.lines| ==> RebuiltLines(EntityOf(o).lines)[i] == InUsd(o.lines[i])
    ensures PricedIn(o.lines, USD) ==>
      RebuiltLines(EntityOf(o).lines) == o.lines && Money(SumOfSubtotals(o.lines), USD) == o.total
  {
    var e := EntityOf(o);
    forall i | 0 <= i < |o.lines| ensures RebuildLine(e.lines[i]) == Ok(InUsd(o.lines[i])) {
      LineRoundTrip(o.lines[i]);
    }
    assert !IsBlank(o.id.value) && !IsBlank(o.customerId.value);
    TotalIsSum(o.lines);
  }

  /** `toDomain` never looks at the stored totals, subtotals or timestamps. */
  lemma IgnoresStoredAmountsAndTimes(e: OrderEntity, f: OrderEntity)
    requires e.id == f.id && e.customerId == f.customerId && e.status == f.status
    requires |e.lines| == |f.lines|
    requires forall i :: 0 <= i < |e.lines| ==>
      e.lines[i] == f.lines[i].(subtotal := e.lines[i].subtotal)
    ensures RebuildError(e) == RebuildError(f)
    ensures RebuildError(e).None? ==> RebuiltLines(e.lines) == RebuiltLines(f.lines)
  {
    assert forall i :: 0 <= i < |e.lines| ==> RebuildLine(e.lines[i]) == RebuildLine(f.lines[i]);
    LinesErrorAgree(e.lines, f.lines);
  }

  lemma {:induction false} LinesErrorAgree(a: seq<LineEntity>, b: seq<LineEntity>)
    requires |a| == |b| && forall i :: 0 <= i < |a| ==> RebuildLine(a[i]) == RebuildLine(b[i])
    ensures LinesError(a) == LinesError(b)
    decreases |a|
  {
    if a != [] {
      LinesErrorAgree(a[1..], b[1..]);
    }
  }

  /** A stored confirmed, shipped or delivered row without lines cannot be loaded. */
  lemma EmptyConfirmedRowFails(e: OrderEntity)
    requires !IsBlank(e.id) && !IsBlank(e.customerId)
    requires NeedsConfirm(e.status) && e.lines == []
    ensures RebuildError(e) == Some(Domain(ConfirmEmpty))
  {
  }

  // ---------------------------------------------------------------------------
  // The table of rows behind the adapter

  class OrderStore {
    var rows: map<string, OrderEntity>

    /** Every row is filed under its own id and can be loaded. */
    ghost predicate Valid()
      reads this
    {
      forall k :: k in rows ==> rows[k].id == k && RebuildError(rows[k]).None?
    }

    constructor ()
      ensures Valid() && rows == map[]
    {
      rows := map[];
    }

    /** `save`: write `toEntity(order)` under its id and return `toDomain` of it. */
    method Save(order: Order, now: Timestamp) returns (saved: Order)
      requires Valid() && order.Valid()
      modifies this
      ensures Valid()
      ensures rows == old(rows)[order.id.value := EntityOf(order)]
      ensures fresh(saved) && IsRebuiltFrom(saved, EntityOf(order), now)
      ensures saved.id == order.id && saved.customerId == order.customerId && saved.status == order.status
      ensures PricedIn(order.lines, USD) ==> saved.lines == order.lines && saved.total == order.total
    {
      var e := ToEntity(order);
      EntityRoundTrip(order);
      rows := rows[e.id := e];
      var r := ToDomain(e, now);
      saved := r.value;
    }

    /** `findById`: `toDomain` of the row under that id, if there is one. */
    method FindById(id: OrderId, now: Timestamp) returns (r: Result<Option<Order>>)
      ensures id.value !in rows ==> r == Ok(None)
      ensures id.value in rows && RebuildError(rows[id.value]).Some? ==> r == Err(RebuildError(rows[id.value]).value)
      ensures id.value in rows && RebuildError(rows[id.value]).None? ==>
        r.Ok? && r.value.Some? && fresh(r.value.value) && IsRebuiltFrom(r.value.value, rows[id.value], now)
    {
      if id.value !in rows {
        return Ok(None);
      }
      var loaded :- ToDomain(rows[id.value], now);
      r := Ok(Some(loaded));
    }
  }
}
