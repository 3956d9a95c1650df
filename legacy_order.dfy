/** The older `domain.Order` aggregate and its package-private value classes.
    It has no status guards on its lines, no currency, no rounding, and lines
    without `equals`, so lines are removed by reference. */
module LegacyDomain {
  import opened Results
  import opened JavaInts
  import opened Timestamps

  datatype LegacyOrderId = LegacyOrderId(value: string)
  datatype LegacyCustomerId = LegacyCustomerId(value: string)
  datatype LegacyProductId = LegacyProductId(value: string)

  /** The legacy `Money`: an exact `BigDecimal`, never rescaled. */
  datatype LegacyMoney = LegacyMoney(amount: real)

  const LegacyZero: LegacyMoney := LegacyMoney(0.0)

  type PositiveInt = v: Int32 | v > 0 witness 1

  datatype LegacyQuantity = LegacyQuantity(value: PositiveInt)

  /** `new Quantity(value)`: rejects values that are not positive. */
  function QuantityOf(v: Int32): (r: Result<LegacyQuantity>)
    ensures r.Ok? <==> v > 0
    ensures r.Ok? ==> r.value.value == v
    ensures r.Err? ==> r.error == IllegalArgument(NonPositiveQuantity)
  {
    if v <= 0 then Err(IllegalArgument(NonPositiveQuantity)) else Ok(LegacyQuantity(v))
  }

  datatype LegacyStatus = Pending | Confirmed | Shipped | Delivered | Cancelled

  /** A legacy line has no `equals`: two lines are the same only when they are
      the same object. */
  class LegacyLine {
    const productId: LegacyProductId
    const quantity: LegacyQuantity
    const price: LegacyMoney

    constructor (productId: LegacyProductId, quantity: LegacyQuantity, price: LegacyMoney)
      ensures this.productId == productId && this.quantity == quantity && this.price == price
    {
      this.productId := productId;
      this.quantity := quantity;
      this.price := price;
    }

    /** `getSubtotal`: `price.multiply(quantity)`, exactly. */
    function Subtotal(): (r: LegacyMoney)
      ensures r.amount == price.amount * quantity.value as real
    {
      LegacyMoney(price.amount * quantity.value as real)
    }
  }

  /** The exact sum of the subtotals: the reference definition of the total. */
  function SumOfSubtotals(lines: seq<LegacyLine>): real {
    if lines == [] then 0.0 else lines[0].Subtotal().amount + SumOfSubtotals(lines[1..])
  }

  /** `calculateTotal`'s fold of `Money.add` from `acc`. */
  function FoldFrom(acc: LegacyMoney, lines: seq<LegacyLine>): LegacyMoney
    decreases |lines|
  {
    if lines == [] then acc else FoldFrom(LegacyMoney(acc.amount + lines[0].Subtotal().amount), lines[1..])
  }

  /** The fold never fails and adds up every subtotal exactly. */
  lemma {:induction false} FoldIsSum(acc: LegacyMoney, lines: seq<LegacyLine>)
    ensures FoldFrom(acc, lines).amount == acc.amount + SumOfSubtotals(lines)
    decreases |lines|
  {
    if lines != [] {
      FoldIsSum(LegacyMoney(acc.amount + lines[0].Subtotal().amount), lines[1..]);
    }
  }

  /** The position of the first occurrence of the very object `x`, or `|lines|`. */
  function FirstIndexOfObject(lines: seq<LegacyLine>, x: LegacyLine): (k: nat)
    ensures k <= |lines|
    ensures k < |lines| ==> lines[k] == x
    ensures forall j :: 0 <= j < k ==> lines[j] != x
    decreases |lines|
  {
    if lines == [] then 0
    else if lines[0] == x then 0
    else 1 + FirstIndexOfObject(lines[1..], x)
  }

  /** `orderLines.remove(line)` with `Object.equals`: drops the first
      occurrence of that object, and nothing when it is absent. */
  function RemoveObject(lines: seq<LegacyLine>, x: LegacyLine): (r: seq<LegacyLine>)
    ensures x !in lines ==> r == lines
    ensures x in lines ==>
      var k := FirstIndexOfObject(lines, x);
      && k < |lines|
      && r == lines[..k] + lines[k + 1..]
      && multiset(r) == multiset(lines) - multiset{x}
  {
    var k := FirstIndexOfObject(lines, x);
    if k == |lines| then lines
    else
      assert lines == lines[..k] + [lines[k]] + lines[k + 1..];
      lines[..k] + lines[k + 1..]
  }

  /** The legacy status machine: `confirm` only from pending, `cancel` from
      anything but delivered. */
  datatype Transition = Confirm | Cancel

  function Step(s: LegacyStatus, t: Transition): (r: Result<LegacyStatus>)
  {
    match t
    case Confirm => if s != Pending then Err(IllegalState(ConfirmNonPending)) else Ok(Confirmed)
    case Cancel => if s == Delivered then Err(IllegalState(CancelDelivered)) else Ok(Cancelled)
  }

  /** The status after trying each transition in turn; a refused one changes nothing. */
  function Run(s: LegacyStatus, ts: seq<Transition>): LegacyStatus
    decreases |ts|
  {
    if ts == [] then s
    else
      var next := Step(s, ts[0]);
      Run(if next.Ok? then next.value else s, ts[1..])
  }

  /** Nothing in the legacy aggregate ships or delivers an order, so from a
      new order no run of transitions reaches shipped or delivered, and
      `cancel` can never fail. */
  lemma {:induction false} NeverShippedOrDelivered(s: LegacyStatus, ts: seq<Transition>)
    requires s == Pending || s == Confirmed || s == Cancelled
    ensures Run(s, ts) == Pending || Run(s, ts) == Confirmed || Run(s, ts) == Cancelled
    ensures Step(Run(s, ts), Cancel) == Ok(Cancelled)
    decreases |ts|
  {
    if ts != [] {
      var next := Step(s, ts[0]);
      NeverShippedOrDelivered(if next.Ok? then next.value else s, ts[1..]);
    }
  }

  class LegacyOrder {
    const id: LegacyOrderId
    const customerId: LegacyCustomerId
    var lines: seq<LegacyLine>
    var status: LegacyStatus
    var total: LegacyMoney
    const createdAt: Timestamp

    /** The total is always the exact sum of the subtotals. */
    ghost predicate Valid()
      reads this
    {
      total.amount == SumOfSubtotals(lines)
    }

    /** `new Order(id, customerId)`. */
    constructor (id: LegacyOrderId, customerId: LegacyCustomerId, now: Timestamp)
      ensures Valid()
      ensures this.id == id && this.customerId == customerId
      ensures lines == [] && status == Pending && total == LegacyZero && createdAt == now
    {
      this.id := id;
      this.customerId := customerId;
      lines := [];
      status := Pending;
      total := LegacyZero;
      createdAt := now;
    }

    method CalculateTotal()
      modifies this`total
      ensures Valid()
    {
      FoldIsSum(LegacyZero, lines);
      total := FoldFrom(LegacyZero, lines);
    }

    /** `addOrderLine`: in any status, and the total follows. */
    method AddOrderLine(line: LegacyLine)
      modifies this`lines, this`total
      ensures Valid()
      ensures lines == old(lines) + [line]
    {
      lines := lines + [line];
      CalculateTotal();
    }

    /** `removeOrderLine`: removes that very object, in any status. */
    method RemoveOrderLine(line: LegacyLine)
      modifies this`lines, this`total
      ensures Valid()
      ensures lines == RemoveObject(old(lines), line)
    {
      lines := RemoveObject(lines, line);
      CalculateTotal();
    }

    /** `confirm`: only from pending, even with no lines. */
    method Confirm() returns (r: Outcome)
      modifies this`status
      ensures Step(old(status), Transition.Confirm).Ok? ==> r == Pass && status == Step(old(status), Transition.Confirm).value
      ensures Step(old(status), Transition.Confirm).Err? ==> r == Fail(Step(old(status), Transition.Confirm).error) && status == old(status)
    {
      if status != Pending {
        return Fail(IllegalState(ConfirmNonPending));
      }
      status := Confirmed;
      r := Pass;
    }

    /** `cancel`: from anything but delivered, an already cancelled order included. */
    method Cancel() returns (r: Outcome)
      modifies this`status
      ensures Step(old(status), Transition.Cancel).Ok? ==> r == Pass && status == Step(old(status), Transition.Cancel).value
      ensures Step(old(status), Transition.Cancel).Err? ==> r == Fail(Step(old(status), Transition.Cancel).error) && status == old(status)
    {
      if status == Delivered {
        return Fail(IllegalState(CancelDelivered));
      }
      status := Cancelled;
      r := Pass;
    }

    /** `getOrderLines`: a new list with the same lines, which callers may
        change without touching the order. */
    method GetOrderLines() returns (copy: array<LegacyLine>)
      ensures fresh(copy)
      ensures copy[..] == lines
    {
      copy := new LegacyLine[|lines|](i requires 0 <= i < |lines| reads this => lines[i]);
    }
  }

  /** Lines are told apart by identity: a second line object with the same
      fields is not removed in place of the first, and a changed copy of the
      line list leaves the order as it was. */
  method ReferenceSemantics(p: LegacyProductId, t: Timestamp)
  {
    var order := new LegacyOrder(LegacyOrderId("o"), LegacyCustomerId("c"), t);
    var q := LegacyQuantity(2);
    var a := new LegacyLine(p, q, LegacyMoney(10.0));
    var b := new LegacyLine(p, q, LegacyMoney(10.0));
    order.AddOrderLine(a);
    assert order.lines == [a];
    assert order.total.amount == 20.0 by {
      assert order.lines[1..] == [];
    }
    assert b !in order.lines;
    order.RemoveOrderLine(b);
    assert order.lines == [a];
    var copy := order.GetOrderLines();
    copy[0] := b;
    assert order.lines == [a];
  }

  /** The legacy status rules: an order without lines can be confirmed, and an
      order can be cancelled twice. */
  method LegacyStatusWalk(t: Timestamp)
  {
    var order := new LegacyOrder(LegacyOrderId("o"), LegacyCustomerId("c"), t);
    var r := order.Confirm();
    assert r == Pass && order.status == Confirmed && order.lines == [];
    r := order.Cancel();
    r := order.Cancel();
    assert r == Pass && order.status == Cancelled;
  }
}
