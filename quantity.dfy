/** `Quantity`: an immutable, strictly positive Java `int`. */
module Quantities {
  import opened Results
  import opened JavaInts

  type Positive = x: int | 0 < x <= IntMax witness 1

  datatype Quantity = Quantity(value: Positive)

  /** `new Quantity(value)` and `Quantity.of(value)`. */
  function Of(v: Int32): (r: Result<Quantity>)
    ensures r.Ok? <==> v > 0
    ensures r.Ok? ==> r.value.value == v
    ensures r.Err? ==> r.error == IllegalArgument(NonPositiveQuantity)
  {
    if v <= 0 then Err(IllegalArgument(NonPositiveQuantity)) else Ok(Quantity(v))
  }

  /** `add`: the `int` sum, which wraps around on overflow, passed to the
      constructor. Overflow always wraps to a value the constructor rejects. */
  function Add(a: Quantity, b: Quantity): (r: Result<Quantity>)
    ensures r.Ok? <==> a.value + b.value <= IntMax
    ensures r.Ok? ==> r.value.value == a.value + b.value
    ensures r.Err? ==> r.error == IllegalArgument(NonPositiveQuantity)
  {
    var sum := Wrap32(a.value + b.value);
    assert a.value + b.value > IntMax ==> sum == a.value + b.value - 0x1_0000_0000;
    Of(sum)
  }

  /** `subtract`: the difference (which cannot overflow), rejected unless positive. */
  function Subtract(a: Quantity, b: Quantity): (r: Result<Quantity>)
    ensures r.Ok? <==> a.value > b.value
    ensures r.Ok? ==> r.value.value == a.value - b.value
    ensures r.Err? ==> r.error == IllegalArgument(NonPositiveResult)
  {
    var result := a.value - b.value;
    if result <= 0 then Err(IllegalArgument(NonPositiveResult)) else Of(result)
  }

  /** `equals`: by value. */
  predicate Equals(a: Quantity, b: Quantity)
    ensures Equals(a, b) <==> a.value == b.value
    ensures Equals(a, b) ==> Hash(a) == Hash(b)
  {
    a.value == b.value
  }

  /** `hashCode`: `Objects.hash(value)`, and `Integer.hashCode(v) == v`. */
  function Hash(q: Quantity): Int32 {
    ObjectsHash1(q.value)
  }
}
