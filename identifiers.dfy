/** The textual form of a `java.util.UUID`: 32 lower-case hex digits in groups of
    8-4-4-4-12. `UUID.randomUUID()` is not modelled; its 128 bits are an input. */
module Uuids {
  import opened JavaStrings

  type Nibble = x: int | 0 <= x < 16

  type Uuid = s: seq<Nibble> | |s| == 32 witness seq(32, _ => 0)

  function HexDigit(n: Nibble): char {
    "0123456789abcdef"[n]
  }

  function Hex(s: seq<Nibble>): (r: string)
    ensures |r| == |s|
  {
    seq(|s|, i requires 0 <= i < |s| => HexDigit(s[i]))
  }

  /** `UUID.toString()`. The text is 36 characters long and never blank. */
  function UuidString(u: Uuid): (r: string)
    ensures |r| == 36
    ensures r[8] == '-' && r[13] == '-' && r[18] == '-' && r[23] == '-'
    ensures !IsBlank(r)
  {
    var r := Hex(u[..8]) + "-" + Hex(u[8..12]) + "-" + Hex(u[12..16]) + "-" + Hex(u[16..20]) + "-" + Hex(u[20..]);
    assert r[8] == '-' && !IsWhitespace(r[8]);
    r
  }
}

/** `OrderId`: a non-blank string compared by value. */
module OrderIds {
  import opened Results
  import opened JavaInts
  import opened JavaStrings
  import opened Uuids

  datatype OrderId = OrderId(value: NonBlank)

  /** `new OrderId(value)` and `OrderId.of(value)`. */
  function Of(v: Option<string>): (r: Result<OrderId>)
    ensures r.Ok? <==> !NullOrBlank(v)
    ensures r.Ok? ==> r.value.value == v.value
    ensures r.Err? ==> r.error == IllegalArgument(BlankOrderId)
  {
    if NullOrBlank(v) then Err(IllegalArgument(BlankOrderId)) else Ok(OrderId(v.value))
  }

  /** `OrderId.generate()`, given the random UUID. */
  function Generate(u: Uuid): (r: OrderId)
    ensures Of(Some(UuidString(u))) == Ok(r)
    ensures |r.value| == 36
  {
    OrderId(UuidString(u))
  }

  /** `toString`: the value itself, which `of` accepts back. */
  function ToString(id: OrderId): (r: string)
    ensures Of(Some(r)) == Ok(id)
  {
    id.value
  }

  /** `equals`: by value; equal ids have equal hash codes. */
  predicate Equals(a: OrderId, b: OrderId)
    ensures Equals(a, b) <==> a.value == b.value
    ensures Equals(a, b) ==> Hash(a) == Hash(b)
  {
    a.value == b.value
  }

  /** `hashCode`: `Objects.hash(value)`. */
  function Hash(id: OrderId): Int32 {
    ObjectsHash1(StringHash(id.value))
  }
}

/** `CustomerId`: a non-blank string compared by value. */
module CustomerIds {
  import opened Results
  import opened JavaInts
  import opened JavaStrings
  import opened Uuids

  datatype CustomerId = CustomerId(value: NonBlank)

  /** `new CustomerId(value)` and `CustomerId.of(value)`. */
  function Of(v: Option<string>): (r: Result<CustomerId>)
    ensures r.Ok? <==> !NullOrBlank(v)
    ensures r.Ok? ==> r.value.value == v.value
    ensures r.Err? ==> r.error == IllegalArgument(BlankCustomerId)
  {
    if NullOrBlank(v) then Err(IllegalArgument(BlankCustomerId)) else Ok(CustomerId(v.value))
  }

  /** `CustomerId.generate()`, given the random UUID. */
  function Generate(u: Uuid): (r: CustomerId)
    ensures Of(Some(UuidString(u))) == Ok(r)
    ensures |r.value| == 36
  {
    CustomerId(UuidString(u))
  }

  /** `toString`: the value itself, which `of` accepts back. */
  function ToString(id: CustomerId): (r: string)
    ensures Of(Some(r)) == Ok(id)
  {
    id.value
  }

  /** `equals`: by value; equal ids have equal hash codes. */
  predicate Equals(a: CustomerId, b: CustomerId)
    ensures Equals(a, b) <==> a.value == b.value
    ensures Equals(a, b) ==> Hash(a) == Hash(b)
  {
    a.value == b.value
  }

  /** `hashCode`: `Objects.hash(value)`. */
  function Hash(id: CustomerId): Int32 {
    ObjectsHash1(StringHash(id.value))
  }
}

/** `ProductId`: a non-blank string compared by value. */
module ProductIds {
  import opened Results
  import opened JavaInts
  import opened JavaStrings
  import opened Uuids

  datatype ProductId = ProductId(value: NonBlank)

  /** `new ProductId(value)` and `ProductId.of(value)`. */
  function Of(v: Option<string>): (r: Result<ProductId>)
    ensures r.Ok? <==> !NullOrBlank(v)
    ensures r.Ok? ==> r.value.value == v.value
    ensures r.Err? ==> r.error == IllegalArgument(BlankProductId)
  {
    if NullOrBlank(v) then Err(IllegalArgument(BlankProductId)) else Ok(ProductId(v.value))
  }

  /** `ProductId.generate()`, given the random UUID. */
  function Generate(u: Uuid): (r: ProductId)
    ensures Of(Some(UuidString(u))) == Ok(r)
    ensures |r.value| == 36
  {
    ProductId(UuidString(u))
  }

  /** `toString`: the value itself, which `of` accepts back. */
  function ToString(id: ProductId): (r: string)
    ensures Of(Some(r)) == Ok(id)
  {
    id.value
  }

  /** `equals`: by value; equal ids have equal hash codes. */
  predicate Equals(a: ProductId, b: ProductId)
    ensures Equals(a, b) <==> a.value == b.value
    ensures Equals(a, b) ==> Hash(a) == Hash(b)
  {
    a.value == b.value
  }

  /** `hashCode`: `Objects.hash(value)`. */
  function Hash(id: ProductId): Int32 {
    ObjectsHash1(StringHash(id.value))
  }
}
