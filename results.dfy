/** Failure-carrying results and the error kinds of the order domain.
    Java exceptions become `Err` values; the variants follow the exception
    classes and the distinct conditions the source raises. */
module Results {

  datatype Option<+T> = None | Some(value: T) {
    function GetOr(default: T): T {
      match this
      case Some(v) => v
      case None => default
    }
  }

  /** What an `IllegalArgumentException` of a value object complains about. */
  datatype Problem =
    | NullAmount               // Money: "Amount cannot be null"
    | NullCurrency             // Money: "Currency cannot be null"
    | CurrencyMismatch         // Money: "Cannot operate on different currencies"
    | NonPositiveQuantity      // Quantity: "Quantity must be positive"
    | NonPositiveResult        // Quantity.subtract: "Resulting quantity must be positive"
    | BlankOrderId             // OrderId: "OrderId cannot be null or blank"
    | BlankCustomerId          // CustomerId
    | BlankProductId           // ProductId
    | NullProductId            // OrderLine
    | NullQuantity             // OrderLine
    | NullUnitPrice            // OrderLine
    | NegativePaging           // Stream.skip / Stream.limit with a negative count

  /** The business rule a `DomainException` (or legacy `IllegalStateException`) reports. */
  datatype Rule =
    | AddToNonPending          // "Cannot add items to non-pending orders"
    | RemoveFromNonPending     // "Cannot remove items from non-pending orders"
    | ConfirmNonPending        // "Only pending orders can be confirmed"
    | ConfirmEmpty             // "Cannot confirm an empty order"
    | ShipNonConfirmed         // "Only confirmed orders can be shipped"
    | DeliverNonShipped        // "Only shipped orders can be delivered"
    | CancelDelivered          // "Delivered orders cannot be cancelled"
    | CancelCancelled          // "Order is already cancelled"

  datatype Error =
    | IllegalArgument(problem: Problem)   // java.lang.IllegalArgumentException
    | Domain(rule: Rule)                  // DomainException
    | IllegalState(rule: Rule)            // java.lang.IllegalStateException (legacy aggregate)
    | OrderNotFound(orderId: string)      // OrderNotFoundException

  datatype Result<+T> = Ok(value: T) | Err(error: Error) {
    predicate IsFailure() { Err? }
    function PropagateFailure<U>(): Result<U> requires Err? { Err(error) }
    function Extract(): T requires Ok? { value }
  }

  /** The result of a `void` operation that may throw. */
  datatype Outcome = Pass | Fail(error: Error)
}
