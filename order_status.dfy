/** `OrderStatus`: the five states of an order. */
module OrderStatuses {
  import opened Results

  datatype OrderStatus = Pending | Confirmed | Shipped | Delivered | Cancelled

  const AllStatuses: seq<OrderStatus> := [Pending, Confirmed, Shipped, Delivered, Cancelled]

  /** There are exactly five states, each listed once. */
  lemma ExactlyFiveStates(s: OrderStatus)
    ensures s in AllStatuses
    ensures |AllStatuses| == 5
    ensures forall i, j :: 0 <= i < j < 5 ==> AllStatuses[i] != AllStatuses[j]
  {
  }

  /** `isModifiable`. */
  predicate IsModifiable(s: OrderStatus)
    ensures IsModifiable(s) <==> s == Pending
  {
    s == Pending
  }

  /** `isCancellable`. */
  predicate IsCancellable(s: OrderStatus)
    ensures IsCancellable(s) <==> s != Delivered && s != Cancelled
  {
    s != Delivered && s != Cancelled
  }

  /** `isFinal`. */
  predicate IsFinal(s: OrderStatus)
    ensures IsFinal(s) <==> s == Delivered || s == Cancelled
  {
    s == Delivered || s == Cancelled
  }

  /** A status can be cancelled exactly when it is not final. */
  lemma CancellableIffNotFinal(s: OrderStatus)
    ensures IsCancellable(s) <==> !IsFinal(s)
  {
  }

  /** `name()`: the enum constant's identifier. */
  function Name(s: OrderStatus): string {
    match s
    case Pending => "PENDING"
    case Confirmed => "CONFIRMED"
    case Shipped => "SHIPPED"
    case Delivered => "DELIVERED"
    case Cancelled => "CANCELLED"
  }

  /** `OrderStatus.valueOf(name)`: the constant with exactly that name;
      `None` where Java throws `IllegalArgumentException`. */
  function ValueOf(name: string): (r: Option<OrderStatus>)
    ensures r.Some? ==> Name(r.value) == name
  {
    if name == "PENDING" then Some(Pending)
    else if name == "CONFIRMED" then Some(Confirmed)
    else if name == "SHIPPED" then Some(Shipped)
    else if name == "DELIVERED" then Some(Delivered)
    else if name == "CANCELLED" then Some(Cancelled)
    else None
  }

  /** `valueOf` inverts `name()`. */
  lemma ValueOfName(s: OrderStatus)
    ensures ValueOf(Name(s)) == Some(s)
  {
  }

  /** `valueOf` recognises a string exactly when it is the name of a status. */
  lemma ValueOfRecognisesNames(name: string)
    ensures ValueOf(name).Some? <==> exists s: OrderStatus :: Name(s) == name
  {
    if exists s: OrderStatus :: Name(s) == name {
      var s: OrderStatus :| Name(s) == name;
      ValueOfName(s);
    }
  }
}
