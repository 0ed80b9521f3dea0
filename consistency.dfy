/**
 * Properties that relate the components to one another: the chat's order
 * lookup and the order endpoint make the same ownership decision, a status
 * word the chat extracts is one the endpoint's status check accepts, and
 * the order numbers given to a newly registered customer are never
 * recognised by the chat's order-number extractor.
 */
module Consistency {
  import opened Wrappers
  import opened Text
  import opened Orders
  import Chat
  import OrderApi
  import Auth

  /**
   * For the number the chat extracts, the chat's section and the order
   * endpoint agree: the order's block exactly when the endpoint returns it,
   * the access-denied line when the endpoint answers 403, the not-found line
   * for 404, and a thrown lookup when it answers 400.
   */
  lemma ChatSectionMatchesEndpoint(
    message: string, customerId: int, authorization: string,
    extractCustomerId: string -> Option<int>, store: OrderStore)
    requires Chat.OrderNumberIn(message).Some?
    requires extractCustomerId(OrderApi.TokenOf(authorization)) == Some(customerId)
    ensures var n := Chat.OrderNumberIn(message).value;
      var response := OrderApi.GetOrderByNumber(n, authorization, extractCustomerId, store);
      var section := Chat.NumberSection(message, customerId, store);
      && (response.Ok? ==> section == Chat.Rendered(Chat.SpecificOrderBlock(response.body)))
      && (response == OrderApi.Forbidden ==> section == Chat.Rendered(Chat.AccessDeniedLine(n)))
      && (response == OrderApi.NotFound ==> section == Chat.Rendered(Chat.NotFoundLine(n)))
      && (response == OrderApi.BadRequest <==> section == Chat.Threw)
  {
    var n := Chat.OrderNumberIn(message).value;
    if NumberLookup !in store.failing {
      match FindByOrderNumber(store.orders, n)
      case None =>
        assert OrderApi.GetOrderByNumber(n, authorization, extractCustomerId, store) == OrderApi.NotFound;
        assert Chat.NumberSection(message, customerId, store) == Chat.Rendered(Chat.NotFoundLine(n));
      case Some(o) =>
        if o.customerId == customerId {
          assert OrderApi.GetOrderByNumber(n, authorization, extractCustomerId, store) == OrderApi.Ok(o);
          assert Chat.NumberSection(message, customerId, store) == Chat.Rendered(Chat.SpecificOrderBlock(o));
        } else {
          assert OrderApi.GetOrderByNumber(n, authorization, extractCustomerId, store) == OrderApi.Forbidden;
          assert Chat.NumberSection(message, customerId, store) == Chat.Rendered(Chat.AccessDeniedLine(n));
        }
    }
  }

  /** A status word the chat extracts passes the status endpoint's check once upper-cased. */
  lemma ExtractedStatusIsValid(lower: string)
    requires Chat.ExtractStatus(lower).Some?
    ensures OrderApi.IsValidStatus(Upper(Chat.ExtractStatus(lower).value))
  {
    var st := Chat.ExtractStatus(lower).value;
    assert forall i :: 0 <= i < |st| ==> !IsLowerAscii(st[i]);
    assert Upper(st) == st;
  }

  /** A number built as "ORD-", the padded id, then a suffix starting with '-' has a second hyphen. */
  lemma DummyNumberNotToken(customerId: int, suffix: string)
    requires suffix != [] && suffix[0] == '-'
    ensures !Chat.IsOrderNumberToken(Auth.DummyNumber(customerId, suffix))
  {
    var w := Auth.DummyNumber(customerId, suffix);
    var k := 4 + |Format03d(customerId)|;
    assert w[k] == '-';
  }

  /**
   * None of the three order numbers registration creates is an order number
   * to the chat, so a message naming one never brings that order into the
   * context.
   */
  lemma DummyNumbersNeverExtracted(customerId: int, now: Timestamp, message: string)
    ensures forall d :: d in Auth.DummyOrders(customerId, now) ==> !Chat.IsOrderNumberToken(d.orderNumber)
    ensures Chat.OrderNumberIn(message).Some? ==>
      forall d :: d in Auth.DummyOrders(customerId, now) ==> Chat.OrderNumberIn(message).value != d.orderNumber
  {
    DummyNumberNotToken(customerId, "-001");
    DummyNumberNotToken(customerId, "-002");
    DummyNumberNotToken(customerId, "-003");
  }
}
