/** `OrderQuery`: an immutable search request, and the mutable `Builder` that
    assembles it. A field the caller never set is `None` (Java's `null`). */
module OrderQueries {
  import opened Results
  import opened JavaInts
  import opened Timestamps

  datatype OrderQuery = OrderQuery(
    customerId: Option<string>, status: Option<string>,
    fromDate: Option<Timestamp>, toDate: Option<Timestamp>,
    page: Int32, size: Int32)

  /** What `OrderQuery.builder().build()` yields: no filters, the first page of 20. */
  const DefaultQuery: OrderQuery := OrderQuery(None, None, None, None, 0, 20)

  class QueryBuilder {
    var customerId: Option<string>
    var status: Option<string>
    var fromDate: Option<Timestamp>
    var toDate: Option<Timestamp>
    var page: Int32
    var size: Int32

    /** `OrderQuery.builder()`: nothing set, page 0, size 20. */
    constructor ()
      ensures customerId == None && status == None && fromDate == None && toDate == None
      ensures page == 0 && size == 20
    {
      customerId := None;
      status := None;
      fromDate := None;
      toDate := None;
      page := 0;
      size := 20;
    }

    method CustomerId(v: Option<string>) returns (b: QueryBuilder)
      modifies this`customerId
      ensures customerId == v && b == this
    {
      customerId := v;
      b := this;
    }

    method Status(v: Option<string>) returns (b: QueryBuilder)
      modifies this`status
      ensures status == v && b == this
    {
      status := v;
      b := this;
    }

    method FromDate(v: Option<Timestamp>) returns (b: QueryBuilder)
      modifies this`fromDate
      ensures fromDate == v && b == this
    {
      fromDate := v;
      b := this;
    }

    method ToDate(v: Option<Timestamp>) returns (b: QueryBuilder)
      modifies this`toDate
      ensures toDate == v && b == this
    {
      toDate := v;
      b := this;
    }

    method Page(v: Int32) returns (b: QueryBuilder)
      modifies this`page
      ensures page == v && b == this
    {
      page := v;
      b := this;
    }

    method Size(v: Int32) returns (b: QueryBuilder)
      modifies this`size
      ensures size == v && b == this
    {
      size := v;
      b := this;
    }

    /** `build`: a query holding the six builder fields as they are now. */
    method Build() returns (q: OrderQuery)
      ensures q.customerId == customerId && q.status == status
      ensures q.fromDate == fromDate && q.toDate == toDate
      ensures q.page == page && q.size == size
    {
      q := OrderQuery(customerId, status, fromDate, toDate, page, size);
    }
  }

  /** A fresh builder builds the default query; each setter changes only its
      own field, so a chain sets exactly the fields it names, the last call
      for a field winning. */
  method BuilderChain(c: string, s: string)
  {
    var b := new QueryBuilder();
    var q := b.Build();
    assert q == DefaultQuery;
    var b1 := b.CustomerId(Some(c));
    var b2 := b1.Status(Some(s));
    var b3 := b2.Page(3);
    var b4 := b3.Page(1);
    q := b4.Build();
    assert q == OrderQuery(Some(c), Some(s), None, None, 1, 20);
  }
}
