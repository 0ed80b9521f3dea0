/**
 * The decision logic of the order endpoints: the caller's id comes from the
 * bearer token, an order looked up by number is returned only to its owner
 * (403 for anyone else, 404 when absent), the caller's order list is sorted
 * newest first and cut to `limit`, and a status filter must be one of the
 * four known statuses. Every exception, a token that does not parse
 * included, turns into 400.
 *
 * Token parsing is a parameter (`None` when it throws); so is the clock of
 * the tracking endpoint.
 */
module OrderApi {
  import opened Wrappers
  import opened Text
  import opened Orders

  /** The outcome of an endpoint: 200 with a body, 403, 404 or 400. */
  datatype Response<T> = Ok(body: T) | Forbidden | NotFound | BadRequest

  const BearerPrefix: string := "Bearer "

  /** `authorization.replace("Bearer ", "")`: every occurrence goes, not only a leading one. */
  function TokenOf(authorization: string): string
  {
    ReplaceAll(authorization, BearerPrefix, "")
  }

  /** Removing every occurrence never lengthens the text, and shortens it whenever there is one. */
  lemma {:induction false} RemovingShortens(s: string, target: string)
    requires target != []
    ensures |ReplaceAll(s, target, "")| <= |s|
    ensures Contains(s, target) ==> |ReplaceAll(s, target, "")| < |s|
    decreases |s|
  {
    if s == [] {
    } else if StartsWith(s, target) {
      RemovingShortens(s[|target|..], target);
    } else {
      RemovingShortens(s[1..], target);
    }
  }

  /** A header holding the prefix anywhere, not only at the start, is changed by the replacement. */
  lemma TokenDropsEveryBearer(authorization: string)
    requires Contains(authorization, BearerPrefix)
    ensures TokenOf(authorization) != authorization
  {
    RemovingShortens(authorization, BearerPrefix);
  }

  /** The usual header, `Bearer ` and a token that does not hold the prefix, gives the token back. */
  lemma BearerHeaderGivesToken(token: string)
    requires !Contains(token, BearerPrefix)
    ensures TokenOf(BearerPrefix + token) == token
  {
    var header := BearerPrefix + token;
    assert header[..|BearerPrefix|] == BearerPrefix;
    assert header[|BearerPrefix|..] == token;
  }

  /** isValidStatus: exactly the four statuses, compared case-sensitively. */
  function IsValidStatus(status: string): (r: bool)
    ensures r <==> status in {Processing, Shipped, Delivered, Cancelled}
  {
    status == Processing || status == Shipped || status == Delivered || status == Cancelled
  }

  /** The status path segment is upper-cased before the check, so any casing of a known status passes. */
  lemma StatusCheckIgnoresCase(status: string)
    requires Upper(status) in {Processing, Shipped, Delivered, Cancelled}
    ensures IsValidStatus(Upper(status))
  {
  }

  /** getOrderByNumber: the order, to its owner only. */
  function GetOrderByNumber(
    orderNumber: string, authorization: string,
    extractCustomerId: string -> Option<int>, store: OrderStore): (r: Response<Order>)
    ensures r == BadRequest <==> extractCustomerId(TokenOf(authorization)).None? || NumberLookup in store.failing
    ensures r.Ok? ==>
      r.body in store.orders && r.body.orderNumber == orderNumber
      && Some(r.body.customerId) == extractCustomerId(TokenOf(authorization))
    ensures r == Forbidden ==>
      exists o :: o in store.orders && o.orderNumber == orderNumber
        && Some(o.customerId) != extractCustomerId(TokenOf(authorization))
    ensures r == NotFound <==>
      r != BadRequest && forall o :: o in store.orders ==> o.orderNumber != orderNumber
  {
    match extractCustomerId(TokenOf(authorization))
    case None => BadRequest
    case Some(customerId) =>
      if NumberLookup in store.failing then BadRequest
      else match FindByOrderNumber(store.orders, orderNumber)
        case None => NotFound
        case Some(order) => if order.customerId != customerId then Forbidden else Ok(order)
  }

  /** With unique order numbers, the owner of the order with that number, and only they, receive it. */
  lemma GetOrderByNumberOwnership(
    orderNumber: string, authorization: string,
    extractCustomerId: string -> Option<int>, store: OrderStore, i: int)
    requires UniqueNumbers(store.orders)
    requires extractCustomerId(TokenOf(authorization)).Some? && NumberLookup !in store.failing
    requires 0 <= i < |store.orders| && store.orders[i].orderNumber == orderNumber
    ensures GetOrderByNumber(orderNumber, authorization, extractCustomerId, store)
         == if Some(store.orders[i].customerId) == extractCustomerId(TokenOf(authorization))
            then Ok(store.orders[i]) else Forbidden
  {
    assert store.orders[i] in store.orders;
    assert FindByOrderNumber(store.orders, orderNumber) == Some(store.orders[i]);
  }

  /**
   * getMyOrders: the caller's orders, sorted newest first in place, then
   * replaced by their first `limit` when there are more. `subList(0, limit)`
   * throws for a negative limit, and every list is longer than that.
   */
  method GetMyOrders(
    authorization: string, limit: int,
    extractCustomerId: string -> Option<int>, store: OrderStore)
    returns (r: Response<seq<Order>>)
    ensures r.BadRequest? <==>
      extractCustomerId(TokenOf(authorization)).None? || CustomerLookup in store.failing || limit < 0
    ensures !r.Forbidden? && !r.NotFound?
    ensures r.Ok? ==>
      var customerId := extractCustomerId(TokenOf(authorization)).value;
      var all := SortNewestFirst(FindByCustomerId(store.orders, customerId));
      && |r.body| == (if |all| <= limit then |all| else limit)
      && r.body == all[..|r.body|]
      && NewestFirst(r.body)
      && forall o :: o in r.body ==> o in store.orders && o.customerId == customerId
  {
    var customerId := extractCustomerId(TokenOf(authorization));
    if customerId.None? || CustomerLookup in store.failing {
      return BadRequest;
    }
    var orders := FindByCustomerId(store.orders, customerId.value);
    orders := SortNewestFirst(orders);
    if |orders| > limit {
      if limit < 0 {
        return BadRequest;
      }
      NewestPrefix(orders, limit);
      orders := orders[..limit];
    }
    return Ok(orders);
  }

  /** getMyOrdersByStatus: the token is read first, then the status is checked before any lookup. */
  function GetMyOrdersByStatus(
    authorization: string, status: string,
    extractCustomerId: string -> Option<int>, store: OrderStore): (r: Response<seq<Order>>)
    ensures r.Ok? || r == BadRequest
    ensures extractCustomerId(TokenOf(authorization)).None? ==> r == BadRequest
    ensures !IsValidStatus(Upper(status)) ==> r == BadRequest
    ensures r.Ok? <==>
      extractCustomerId(TokenOf(authorization)).Some? && IsValidStatus(Upper(status))
      && CustomerStatusLookup !in store.failing
    ensures r.Ok? ==>
      forall o :: o in r.body <==>
        o in store.orders && Some(o.customerId) == extractCustomerId(TokenOf(authorization))
        && o.status == Upper(status)
  {
    match extractCustomerId(TokenOf(authorization))
    case None => BadRequest
    case Some(customerId) =>
      var validStatus := Upper(status);
      if !IsValidStatus(validStatus) then BadRequest
      else if CustomerStatusLookup in store.failing then BadRequest
      else Ok(FindByCustomerIdAndStatus(store.orders, customerId, validStatus))
  }

  const SecondsPerHour: int := 3600

  /** The tracking record; everything but the number and the status is fixed or read from the clock. */
  datatype TrackingInfo = TrackingInfo(
    orderNumber: string,
    status: string,
    estimatedDelivery: Timestamp,
    currentLocation: string,
    trackingNumber: string,
    carrier: string,
    lastUpdate: Timestamp,
    message: string)

  /** getOrderTracking: the same ownership decision as getOrderByNumber, with a tracking record on success. */
  function GetOrderTracking(
    orderNumber: string, authorization: string, now: Timestamp,
    extractCustomerId: string -> Option<int>, store: OrderStore): (r: Response<TrackingInfo>)
    ensures r.Ok? <==> GetOrderByNumber(orderNumber, authorization, extractCustomerId, store).Ok?
    ensures r == Forbidden <==> GetOrderByNumber(orderNumber, authorization, extractCustomerId, store) == Forbidden
    ensures r == NotFound <==> GetOrderByNumber(orderNumber, authorization, extractCustomerId, store) == NotFound
    ensures r == BadRequest <==> GetOrderByNumber(orderNumber, authorization, extractCustomerId, store) == BadRequest
    ensures r.Ok? ==>
      && r.body.orderNumber == orderNumber
      && r.body.status == GetOrderByNumber(orderNumber, authorization, extractCustomerId, store).body.status
      && r.body.lastUpdate < now < r.body.estimatedDelivery
  {
    match extractCustomerId(TokenOf(authorization))
    case None => BadRequest
    case Some(customerId) =>
      if NumberLookup in store.failing then BadRequest
      else match FindByOrderNumber(store.orders, orderNumber)
        case None => NotFound
        case Some(order) =>
          if order.customerId != customerId then Forbidden
          else Ok(TrackingInfo(
            orderNumber,
            order.status,
            now + 2 * SecondsPerDay,
            "Distribution Center - Memphis, TN",
            "1Z999AA1234567890",
            "FedEx",
            now - 6 * SecondsPerHour,
            "Package is in transit to final destination"))
  }
}
