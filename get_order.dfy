/** `GetOrderService`: the read side. `queryOrders` runs the three filters over
    what `findAll` returned, then skips whole pages and keeps one page. */
module GetOrders {
  import opened Results
  import opened JavaStrings
  import opened Timestamps
  import opened MoneyValues
  import opened OrderIds
  import opened CustomerIds
  import opened OrderLines
  import opened OrderStatuses
  import opened Orders
  import opened OrderResponses
  import opened OrderQueries
  import opened Persistence

  // ---------------------------------------------------------------------------
  // The filters

  /** `filterByCustomerId`: no customer (null or blank) keeps every order;
      otherwise the customer id must be exactly that string. */
  predicate MatchesCustomer(o: Order, customerId: Option<string>)
    ensures MatchesCustomer(o, customerId) <==> NullOrBlank(customerId) || o.customerId.value == customerId.value
  {
    if NullOrBlank(customerId) then true else o.customerId.value == customerId.value
  }

  /** `filterByStatus`: no status keeps every order, and so does a name that,
      upper-cased, is no status at all; otherwise the status must be the named one. */
  predicate MatchesStatus(o: Order, status: Option<string>)
    reads o
    ensures MatchesStatus(o, status) <==>
      || NullOrBlank(status)
      || ValueOf(ToUpper(status.value)).None?
      || o.status == ValueOf(ToUpper(status.value)).value
  {
    if NullOrBlank(status) then true
    else
      match ValueOf(ToUpper(status.value))
      case None => true
      case Some(s) => o.status == s
  }

  /** `filterByDateRange`: both bounds are optional and inclusive. */
  predicate MatchesDateRange(o: Order, q: OrderQuery)
    ensures MatchesDateRange(o, q) <==>
      (q.fromDate.None? || q.fromDate.value <= o.createdAt) && (q.toDate.None? || o.createdAt <= q.toDate.value)
  {
    if q.fromDate.Some? && IsBefore(o.createdAt, q.fromDate.value) then false
    else if q.toDate.Some? && IsAfter(o.createdAt, q.toDate.value) then false
    else true
  }

  predicate Matches(o: Order, q: OrderQuery)
    reads o
  {
    MatchesCustomer(o, q.customerId) && MatchesStatus(o, q.status) && MatchesDateRange(o, q)
  }

  /** A status name in any mix of ASCII cases selects exactly the orders in that status. */
  lemma StatusFilterIgnoresCase(o: Order, s: OrderStatus, spelled: string)
    requires ToUpper(spelled) == Name(s)
    ensures MatchesStatus(o, Some(spelled)) <==> o.status == s
  {
    ValueOfName(s);
    assert |spelled| > 0 && AsciiUpper(spelled[0]) == Name(s)[0];
    assert !IsWhitespace(spelled[0]);
  }

  /** No status, a blank one and a name that is no status, such as
      "SHIPPING", all filter nothing out. */
  lemma UnknownStatusKeepsAll(o: Order, status: Option<string>)
    requires NullOrBlank(status) || ValueOf(ToUpper(status.value)).None?
    ensures MatchesStatus(o, status)
  {
  }

  /** The null and the blank status, the first test of `filterByStatus`. */
  lemma NullOrBlankStatusKeepsAll(o: Order, spelled: string)
    requires IsBlank(spelled)
    ensures MatchesStatus(o, None) && MatchesStatus(o, Some(spelled))
  {
    UnknownStatusKeepsAll(o, None);
    UnknownStatusKeepsAll(o, Some(spelled));
  }

  /** The query that sets nothing keeps every order. */
  lemma DefaultQueryMatchesAll(o: Order)
    ensures Matches(o, DefaultQuery)
  {
  }

  // ---------------------------------------------------------------------------
  // queryOrders

  /** The positions below `n` of the orders the query keeps, in increasing order. */
  function KeptBelow(orders: seq<Order>, q: OrderQuery, n: nat): (ks: seq<nat>)
    requires n <= |orders|
    reads set o | o in orders
    ensures forall i :: 0 <= i < |ks| ==> ks[i] < n
  {
    if n == 0 then []
    else KeptBelow(orders, q, n - 1) + (if Matches(orders[n - 1], q) then [n - 1] else [])
  }

  /** The positions in `orders` of the orders the query keeps. */
  function KeptPositions(orders: seq<Order>, q: OrderQuery): (ks: seq<nat>)
    reads set o | o in orders
    ensures forall i :: 0 <= i < |ks| ==> ks[i] < |orders|
  {
    KeptBelow(orders, q, |orders|)
  }

  lemma {:induction false} KeptBelowSpec(orders: seq<Order>, q: OrderQuery, n: nat)
    requires n <= |orders|
    ensures var ks := KeptBelow(orders, q, n);
      && (forall i :: 0 <= i < |ks| ==> Matches(orders[ks[i]], q))
      && (forall i, j :: 0 <= i < j < |ks| ==> ks[i] < ks[j])
      && (forall k :: 0 <= k < n && Matches(orders[k], q) ==> k in ks)
  {
    if n > 0 {
      KeptBelowSpec(orders, q, n - 1);
    }
  }

  /** The kept positions are exactly the positions of the matching orders,
      in increasing order. */
  lemma KeptPositionsSpec(orders: seq<Order>, q: OrderQuery)
    ensures var ks := KeptPositions(orders, q);
      && (forall i :: 0 <= i < |ks| ==> Matches(orders[ks[i]], q))
      && (forall i, j :: 0 <= i < j < |ks| ==> ks[i] < ks[j])
      && (forall k :: 0 <= k < |orders| && Matches(orders[k], q) ==> k in ks)
  {
    assert KeptPositions(orders, q) == KeptBelow(orders, q, |orders|);
    KeptBelowSpec(orders, q, |orders|);
  }

  /** The three `filter` stages of the stream over the first `n` orders, in
      `findAll` order. */
  function FilteredBelow(orders: seq<Order>, q: OrderQuery, n: nat): seq<Order>
    requires n <= |orders|
    reads set o | o in orders
  {
    if n == 0 then []
    else FilteredBelow(orders, q, n - 1) + (if Matches(orders[n - 1], q) then [orders[n - 1]] else [])
  }

  function Filtered(orders: seq<Order>, q: OrderQuery): seq<Order>
    reads set o | o in orders
  {
    FilteredBelow(orders, q, |orders|)
  }

  /** The filtered stream is the orders at the kept positions. */
  lemma {:induction false} FilteredBelowIsKept(orders: seq<Order>, q: OrderQuery, n: nat)
    requires n <= |orders|
    ensures |FilteredBelow(orders, q, n)| == |KeptBelow(orders, q, n)|
    ensures forall i :: 0 <= i < |FilteredBelow(orders, q, n)| ==>
      FilteredBelow(orders, q, n)[i] == orders[KeptBelow(orders, q, n)[i]]
  {
    if n > 0 {
      FilteredBelowIsKept(orders, q, n - 1);
    }
  }

  lemma FilteredIsKept(orders: seq<Order>, q: OrderQuery)
    ensures |Filtered(orders, q)| == |KeptPositions(orders, q)|
    ensures forall i :: 0 <= i < |Filtered(orders, q)| ==> Filtered(orders, q)[i] == orders[KeptPositions(orders, q)[i]]
  {
    FilteredBelowIsKept(orders, q, |orders|);
  }

  /** `Stream.skip(n)`. */
  function Skip<T>(s: seq<T>, n: int): seq<T> {
    if n <= 0 then s else if n >= |s| then [] else s[n..]
  }

  /** `Stream.limit(n)`. */
  function Limit<T>(s: seq<T>, n: int): seq<T> {
    if n >= |s| then s else if n <= 0 then [] else s[..n]
  }

  function Min(a: int, b: int): int {
    if a <= b then a else b
  }

  /** `skip(n).limit(m)` keeps the elements from position `n` on, at most `m` of them. */
  lemma SkipThenLimit<T>(s: seq<T>, n: int, m: int)
    requires n >= 0 && m >= 0
    ensures |Limit(Skip(s, n), m)| == (if n >= |s| then 0 else Min(m, |s| - n))
    ensures forall i :: 0 <= i < |Limit(Skip(s, n), m)| ==> Limit(Skip(s, n), m)[i] == s[n + i]
  {
  }

  /** The page of the filtered stream holds the orders at the kept positions
      from rank `skip` on, so their responses are those of these orders. */
  lemma PageIsKeptOrders(orders: seq<Order>, q: OrderQuery, skip: int, size: int)
    requires skip >= 0 && size >= 0
    ensures var page := Limit(Skip(Filtered(orders, q), skip), size);
      var ks := KeptPositions(orders, q);
      && (forall o :: o in page ==> o in orders)
      && |page| == (if skip >= |ks| then 0 else Min(size, |ks| - skip))
      && forall i :: 0 <= i < |page| ==> page[i] == orders[ks[skip + i]]
  {
    FilteredIsKept(orders, q);
    SkipThenLimit(Filtered(orders, q), skip, size);
  }

  /** `.map(OrderResponse::fromDomain)`. */
  function Responses(os: seq<Order>): (r: seq<OrderResponse>)
    reads set o | o in os
    ensures |r| == |os| && forall i :: 0 <= i < |os| ==> r[i] == FromDomain(os[i])
  {
    seq(|os|, i requires 0 <= i < |os| reads set o | o in os => FromDomain(os[i]))
  }

  /** `queryOrders`: `skip` and `limit` reject a negative count (`page * size`
      is computed in 64 bits, wide enough for any two `int`s); otherwise the
      result is the responses of the matching orders from rank `page * size`
      on, at most `size` of them, in `findAll` order. */
  function QueryOrders(orders: seq<Order>, q: OrderQuery): (r: Result<seq<OrderResponse>>)
    reads set o | o in orders
    ensures r.Err? <==> Offset(q) < 0 || q.size < 0
    ensures r.Err? ==> r.error == IllegalArgument(NegativePaging)
    ensures r.Ok? ==> IsPageOf(orders, q, Offset(q), q.size, r.value)
  {
    if Offset(q) < 0 || q.size < 0 then Err(IllegalArgument(NegativePaging))
    else Ok(PageResponses(orders, q, Offset(q)))
  }

  /** `(long) page * size`, the number of matching orders `skip` passes over. */
  function Offset(q: OrderQuery): int {
    q.page * q.size
  }

  /** `page` holds the responses of the orders matching `q` from rank `skip`
      on, at most `size` of them, in `findAll` order. */
  predicate IsPageOf(orders: seq<Order>, q: OrderQuery, skip: int, size: int, page: seq<OrderResponse>)
    reads set o | o in orders
  {
    var ks := KeptPositions(orders, q);
    && skip >= 0 && size >= 0
    && |page| == (if skip >= |ks| then 0 else Min(size, |ks| - skip))
    && forall i :: 0 <= i < |page| ==> page[i] == FromDomain(orders[ks[skip + i]])
  }

  /** The responses of `skip(skip).limit(q.size)` of the filtered stream. */
  function PageResponses(orders: seq<Order>, q: OrderQuery, skip: int): (r: seq<OrderResponse>)
    requires skip >= 0 && q.size >= 0
    reads set o | o in orders
    ensures IsPageOf(orders, q, skip, q.size, r)
  {
    var page := Limit(Skip(Filtered(orders, q), skip), q.size);
    PageIsKeptOrders(orders, q, skip, q.size);
    Responses(page)
  }

  /** Every result comes from an order that passes all three filters, and
      results keep the relative order of `findAll`. */
  lemma QueryResultsAreOrderedMatches(orders: seq<Order>, q: OrderQuery, i: int, j: int)
    requires QueryOrders(orders, q).Ok?
    requires 0 <= i < j < |QueryOrders(orders, q).value|
    ensures exists a, b ::
      && 0 <= a < b < |orders| && Matches(orders[a], q) && Matches(orders[b], q)
      && QueryOrders(orders, q).value[i] == FromDomain(orders[a])
      && QueryOrders(orders, q).value[j] == FromDomain(orders[b])
  {
    var ks := KeptPositions(orders, q);
    KeptPositionsSpec(orders, q);
    var skip := Offset(q);
    assert skip + j < |ks|;
    var a, b := ks[skip + i], ks[skip + j];
    assert a < b && Matches(orders[a], q) && Matches(orders[b], q);
  }

  lemma {:induction false} FilterBelowKeepsAll(orders: seq<Order>, q: OrderQuery, n: nat)
    requires n <= |orders|
    requires forall k :: 0 <= k < |orders| ==> Matches(orders[k], q)
    ensures FilteredBelow(orders, q, n) == orders[..n]
  {
    if n > 0 {
      FilterBelowKeepsAll(orders, q, n - 1);
      assert Matches(orders[n - 1], q);
      assert orders[..n - 1] + [orders[n - 1]] == orders[..n];
    }
  }

  /** When every order matches, the filters keep them all. */
  lemma FilterKeepsAll(orders: seq<Order>, q: OrderQuery)
    requires forall k :: 0 <= k < |orders| ==> Matches(orders[k], q)
    ensures Filtered(orders, q) == orders
  {
    FilterBelowKeepsAll(orders, q, |orders|);
    assert orders[..|orders|] == orders;
  }

  /** With the builder's defaults the query returns the first 20 orders. */
  lemma DefaultQueryIsFirstPage(orders: seq<Order>)
    ensures QueryOrders(orders, DefaultQuery).Ok?
    ensures |QueryOrders(orders, DefaultQuery).value| == Min(20, |orders|)
    ensures forall i :: 0 <= i < Min(20, |orders|) ==> QueryOrders(orders, DefaultQuery).value[i] == FromDomain(orders[i])
  {
    forall k | 0 <= k < |orders| ensures Matches(orders[k], DefaultQuery) {
      DefaultQueryMatchesAll(orders[k]);
    }
    FilterKeepsAll(orders, DefaultQuery);
    FilteredIsKept(orders, DefaultQuery);
  }

  // ---------------------------------------------------------------------------
  // getOrderById and getOrdersByCustomerId

  /** The response for a stored row, as seen at load time `now`. */
  function RowResponse(e: OrderEntity, now: Timestamp): (r: OrderResponse)
    requires RebuildError(e).None?
    ensures r.orderId == e.id && r.customerId == e.customerId && ValueOf(r.status) == Some(e.status)
    ensures r.createdAt == now && r.updatedAt == now
    ensures |r.items| == |e.lines|
  {
    var lines := RebuiltLines(e.lines);
    ValueOfName(e.status);
    OrderResponse(e.id, e.customerId, Name(e.status), Amount(Money(SumOfSubtotals(lines), USD)), now, now,
                  seq(|lines|, i requires 0 <= i < |lines| => LineFromDomain(lines[i])))
  }

  /** What the client receives for a loaded order depends only on the row and
      the time of loading: the stored timestamps never reach it. */
  lemma LoadedResponseIsRowResponse(o: Order, e: OrderEntity, now: Timestamp)
    requires IsRebuiltFrom(o, e, now)
    ensures FromDomain(o) == RowResponse(e, now)
  {
  }

  /** `getOrderById`: a blank id throws in `OrderId.of`; otherwise the response
      of the stored order, or nothing when no row has that id. */
  method GetOrderById(store: OrderStore, orderId: Option<string>, now: Timestamp) returns (r: Result<Option<OrderResponse>>)
    ensures NullOrBlank(orderId) ==> r == Err(IllegalArgument(BlankOrderId))
    ensures !NullOrBlank(orderId) && orderId.value !in store.rows ==> r == Ok(None)
    ensures !NullOrBlank(orderId) && orderId.value in store.rows && store.Valid() ==>
      r == Ok(Some(RowResponse(store.rows[orderId.value], now)))
  {
    var id :- OrderIds.Of(orderId);
    var found :- store.FindById(id, now);
    if found.None? {
      return Ok(None);
    }
    LoadedResponseIsRowResponse(found.value, store.rows[id.value], now);
    r := Ok(Some(FromDomain(found.value)));
  }

  /** `getOrdersByCustomerId`, given what `findByCustomerId` returned: a blank
      customer throws in `CustomerId.of`; otherwise one response per order, in
      the repository's order. */
  function GetOrdersByCustomerId(customerId: Option<string>, found: seq<Order>): (r: Result<seq<OrderResponse>>)
    reads set o | o in found
    ensures r.Err? <==> NullOrBlank(customerId)
    ensures r.Err? ==> r.error == IllegalArgument(BlankCustomerId)
    ensures r.Ok? ==> |r.value| == |found| && forall i :: 0 <= i < |found| ==> r.value[i] == FromDomain(found[i])
  {
    var _ :- CustomerIds.Of(customerId);
    Ok(Responses(found))
  }
}
