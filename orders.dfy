/**
 * The order entity and the query semantics of the order repository, as
 * specification functions over the table's rows (a `seq<Order>` in table
 * order). Both the chat context resolver and the order endpoints consume
 * these queries.
 */
module Orders {
  import opened Wrappers
  import opened Text

  /** A LocalDateTime, as a number of seconds on one clock. */
  type Timestamp = int

  const SecondsPerDay: int := 86400

  /** The four statuses the system uses (the column itself is free text). */
  const Processing: string := "PROCESSING"
  const Shipped: string := "SHIPPED"
  const Delivered: string := "DELIVERED"
  const Cancelled: string := "CANCELLED"

  /** A row of the orders table. The amount is held in cents. */
  datatype Order = Order(
    orderNumber: string,
    customerId: int,
    status: string,
    totalAmount: int,
    shippingAddress: string,
    createdDate: Timestamp,
    updatedDate: Option<Timestamp>)

  /** The queries of the repository; a store may be unable to answer some of them. */
  datatype Lookup = NumberLookup | CustomerLookup | CustomerStatusLookup | RecentLookup

  /**
   * The order store as its consumers see it: the rows, the lookups that
   * currently throw (database unreachable), and the database's CURRENT_DATE
   * (midnight of the current day).
   */
  datatype OrderStore = OrderStore(orders: seq<Order>, failing: set<Lookup>, currentDate: Timestamp)

  /** order_number is a unique column. */
  ghost predicate UniqueNumbers(orders: seq<Order>)
  {
    forall i, j :: 0 <= i < |orders| && 0 <= j < |orders| && orders[i].orderNumber == orders[j].orderNumber ==> i == j
  }

  // --------------------------------------------------------------- filtering

  /** The elements of `s` satisfying `p`, in their original order. */
  function Filter<T(!new)>(s: seq<T>, p: T -> bool): (r: seq<T>)
    ensures |r| <= |s|
    ensures forall x :: x in r <==> x in s && p(x)
    ensures multiset(r) <= multiset(s)
  {
    if s == [] then []
    else
      assert s == [s[0]] + s[1..];
      if p(s[0]) then [s[0]] + Filter(s[1..], p) else Filter(s[1..], p)
  }

  /**
   * Filtering two sequences that agree, position by position, on the
   * predicate, and on every element the predicate keeps, gives the same result.
   */
  lemma {:induction false} FilterAgree<T(!new)>(s1: seq<T>, s2: seq<T>, p: T -> bool)
    requires |s1| == |s2|
    requires forall i :: 0 <= i < |s1| ==> p(s1[i]) == p(s2[i]) && (p(s1[i]) ==> s1[i] == s2[i])
    ensures Filter(s1, p) == Filter(s2, p)
  {
    if s1 != [] {
      assert p(s1[0]) == p(s2[0]);
      FilterAgree(s1[1..], s2[1..], p);
    }
  }

  // ----------------------------------------------------------------- sorting

  /** Ordered by createdDate, most recent first. */
  ghost predicate NewestFirst(s: seq<Order>)
  {
    forall i, j :: 0 <= i < j < |s| ==> s[i].createdDate >= s[j].createdDate
  }

  /** Inserts `o` after every element created at the same time or later (stable). */
  function InsertNewestFirst(o: Order, sorted: seq<Order>): (r: seq<Order>)
    requires NewestFirst(sorted)
    ensures NewestFirst(r)
    ensures |r| == |sorted| + 1
    ensures forall x :: x in r <==> x in sorted || x == o
    ensures multiset(r) == multiset(sorted) + multiset{o}
  {
    if sorted == [] then [o]
    else if sorted[0].createdDate >= o.createdDate then
      var head, tail := sorted[0], sorted[1..];
      var rest := InsertNewestFirst(o, tail);
      assert sorted == [head] + tail;
      assert multiset(sorted) == multiset{head} + multiset(tail);
      HeadIsNewest(sorted);
      PrependNewest(head, rest);
      assert multiset([head] + rest) == multiset{head} + multiset(rest);
      [head] + rest
    else
      PrependNewest(o, sorted);
      [o] + sorted
  }

  /** The first order of a newest-first sequence is created no earlier than any after it. */
  lemma HeadIsNewest(sorted: seq<Order>)
    requires sorted != [] && NewestFirst(sorted)
    ensures forall x :: x in sorted[1..] ==> sorted[0].createdDate >= x.createdDate
  {
    forall x | x in sorted[1..]
      ensures sorted[0].createdDate >= x.createdDate
    {
      var k :| 0 <= k < |sorted[1..]| && sorted[1..][k] == x;
      assert x == sorted[k + 1];
    }
  }

  /** An order created no earlier than every order of a newest-first sequence may go in front of it. */
  lemma PrependNewest(head: Order, rest: seq<Order>)
    requires NewestFirst(rest)
    requires forall x :: x in rest ==> head.createdDate >= x.createdDate
    ensures NewestFirst([head] + rest)
  {
    var r := [head] + rest;
    forall i, j | 0 <= i < j < |r|
      ensures r[i].createdDate >= r[j].createdDate
    {
      assert r[j] == rest[j - 1] && r[j] in rest;
      if i > 0 {
        assert r[i] == rest[i - 1];
      }
    }
  }

  /**
   * The comparator sort `o2.createdDate.compareTo(o1.createdDate)` and the
   * query clause ORDER BY createdDate DESC: a stable sort, newest first.
   */
  function SortNewestFirst(s: seq<Order>): (r: seq<Order>)
    ensures NewestFirst(r)
    ensures |r| == |s|
    ensures forall x :: x in r <==> x in s
    ensures multiset(r) == multiset(s)
  {
    if s == [] then []
    else
      var init := s[..|s| - 1];
      assert s == init + [s[|s| - 1]];
      InsertNewestFirst(s[|s| - 1], SortNewestFirst(init))
  }

  /** The first `n` orders of a newest-first sequence are newest first and among its orders. */
  lemma NewestPrefix(s: seq<Order>, n: int)
    requires NewestFirst(s) && 0 <= n <= |s|
    ensures NewestFirst(s[..n])
    ensures forall x :: x in s[..n] ==> x in s
  {
  }

  /** Saving an order whose number is not taken keeps the numbers unique. */
  lemma AppendKeepsNumbersUnique(orders: seq<Order>, o: Order)
    requires UniqueNumbers(orders)
    requires forall x :: x in orders ==> x.orderNumber != o.orderNumber
    ensures UniqueNumbers(orders + [o])
  {
  }

  // ----------------------------------------------------------------- queries

  /** findByOrderNumber: the order with that number, if any. */
  function FindByOrderNumber(orders: seq<Order>, orderNumber: string): (r: Option<Order>)
    ensures r.Some? ==> r.value in orders && r.value.orderNumber == orderNumber
    ensures r.None? <==> forall o :: o in orders ==> o.orderNumber != orderNumber
    ensures r.Some? && UniqueNumbers(orders) ==>
      forall i :: 0 <= i < |orders| && orders[i].orderNumber == orderNumber ==> orders[i] == r.value
  {
    if orders == [] then None
    else if orders[0].orderNumber == orderNumber then
      assert UniqueNumbers(orders) ==> forall i :: 0 < i < |orders| ==> orders[i].orderNumber != orderNumber;
      Some(orders[0])
    else
      var r := FindByOrderNumber(orders[1..], orderNumber);
      assert UniqueNumbers(orders) ==> UniqueNumbers(orders[1..]) by {
        if UniqueNumbers(orders) {
          forall i, j | 0 <= i < |orders| - 1 && 0 <= j < |orders| - 1 && orders[1..][i].orderNumber == orders[1..][j].orderNumber
            ensures i == j
          {
            assert orders[i + 1].orderNumber == orders[j + 1].orderNumber;
          }
        }
      }
      assert forall i :: 0 < i < |orders| ==> orders[i] == orders[1..][i - 1];
      r
  }

  /** findByCustomerId: that customer's orders, in table order. */
  function FindByCustomerId(orders: seq<Order>, customerId: int): (r: seq<Order>)
    ensures forall o :: o in r <==> o in orders && o.customerId == customerId
    ensures |r| <= |orders|
  {
    Filter(orders, (o: Order) => o.customerId == customerId)
  }

  /** findByCustomerIdAndStatus: that customer's orders with exactly that status. */
  function FindByCustomerIdAndStatus(orders: seq<Order>, customerId: int, status: string): (r: seq<Order>)
    ensures forall o :: o in r <==> o in orders && o.customerId == customerId && o.status == status
    ensures |r| <= |orders|
  {
    Filter(orders, (o: Order) => o.customerId == customerId && o.status == status)
  }

  /** findByOrderNumberContaining: `orderNumber LIKE %part%`. */
  function FindByOrderNumberContaining(orders: seq<Order>, part: string): (r: seq<Order>)
    ensures forall o :: o in r <==> o in orders && Contains(o.orderNumber, part)
    ensures |r| <= |orders|
  {
    Filter(orders, (o: Order) => Contains(o.orderNumber, part))
  }

  /** CURRENT_DATE - 30, as a timestamp. */
  function RecentCutoff(currentDate: Timestamp): Timestamp
  {
    currentDate - 30 * SecondsPerDay
  }

  /** findRecentOrdersByCustomerId: the customer's orders of the last 30 days, newest first. */
  function FindRecentOrdersByCustomerId(orders: seq<Order>, customerId: int, currentDate: Timestamp): (r: seq<Order>)
    ensures forall o :: o in r <==> o in orders && o.customerId == customerId && o.createdDate >= RecentCutoff(currentDate)
    ensures NewestFirst(r)
    ensures multiset(r) <= multiset(orders)
  {
    var kept := Filter(orders, (o: Order) => o.customerId == customerId && o.createdDate >= RecentCutoff(currentDate));
    SortNewestFirst(kept)
  }

  // --------------------------------------------------- what a requester may see

  /**
   * Two stores that differ only in what `customerId` may not see: they answer
   * and fail the same lookups, have the same rows in the same places with the
   * same numbers and owners, and agree on every row that customer owns.
   */
  ghost predicate SameForCustomer(s1: OrderStore, s2: OrderStore, customerId: int)
  {
    && s1.failing == s2.failing
    && s1.currentDate == s2.currentDate
    && |s1.orders| == |s2.orders|
    && forall i :: 0 <= i < |s1.orders| ==>
         && s1.orders[i].orderNumber == s2.orders[i].orderNumber
         && s1.orders[i].customerId == s2.orders[i].customerId
         && (s1.orders[i].customerId == customerId ==> s1.orders[i] == s2.orders[i])
  }

  /** Looking up a number in two such stores finds the same owner, and the same row when it is the requester's. */
  lemma {:induction false} FindByOrderNumberAgree(s1: seq<Order>, s2: seq<Order>, n: string, customerId: int)
    requires |s1| == |s2|
    requires forall i :: 0 <= i < |s1| ==>
      && s1[i].orderNumber == s2[i].orderNumber
      && s1[i].customerId == s2[i].customerId
      && (s1[i].customerId == customerId ==> s1[i] == s2[i])
    ensures FindByOrderNumber(s1, n).Some? == FindByOrderNumber(s2, n).Some?
    ensures FindByOrderNumber(s1, n).Some? ==>
      FindByOrderNumber(s1, n).value.customerId == FindByOrderNumber(s2, n).value.customerId
    ensures FindByOrderNumber(s1, n).Some? && FindByOrderNumber(s1, n).value.customerId == customerId ==>
      FindByOrderNumber(s1, n) == FindByOrderNumber(s2, n)
  {
    if s1 != [] && s1[0].orderNumber != n {
      FindByOrderNumberAgree(s1[1..], s2[1..], n, customerId);
    }
  }

  /** Every query scoped to `customerId` returns the same rows from two stores that are the same for that customer. */
  lemma CustomerQueriesAgree(s1: OrderStore, s2: OrderStore, customerId: int, status: string)
    requires SameForCustomer(s1, s2, customerId)
    ensures FindByCustomerId(s1.orders, customerId) == FindByCustomerId(s2.orders, customerId)
    ensures FindByCustomerIdAndStatus(s1.orders, customerId, status) == FindByCustomerIdAndStatus(s2.orders, customerId, status)
    ensures FindRecentOrdersByCustomerId(s1.orders, customerId, s1.currentDate)
         == FindRecentOrdersByCustomerId(s2.orders, customerId, s2.currentDate)
  {
    FilterAgree(s1.orders, s2.orders, (o: Order) => o.customerId == customerId);
    FilterAgree(s1.orders, s2.orders, (o: Order) => o.customerId == customerId && o.status == status);
    FilterAgree(s1.orders, s2.orders,
      (o: Order) => o.customerId == customerId && o.createdDate >= RecentCutoff(s1.currentDate));
  }
}
