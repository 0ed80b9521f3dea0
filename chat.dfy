/**
 * The chat service: classifying a customer's message, scoring the model's
 * reply, pulling an order number and a status word out of the message,
 * rendering the order context the prompt carries (with the ownership check
 * on the order looked up by number), and assembling the prompt and the
 * response, with the fixed fallback reply when the completion fails.
 *
 * The order store, the customer table, the embedding provider, the vector
 * search and the chat completion are parameters; `None` from a collaborator
 * stands for the exception it throws.
 */
module Chat {
  import opened Wrappers
  import opened Text
  import opened Orders
  import opened Customers
  import opened Rag

  // ---------------------------------------------------------------- keywords

  // The lower-case words the message and the reply are searched for.
  const OrderWord: string := "order"
  const StatusWord: string := "status"
  const WhereWord: string := "where"
  const TrackWord: string := "track"
  const HistoryWord: string := "history"
  const PastWord: string := "past"
  const PreviousWord: string := "previous"
  const ShippingWord: string := "shipping"
  const DeliveryWord: string := "delivery"
  const HelpWord: string := "help"
  const SupportWord: string := "support"
  const CanWord: string := "can"
  const AllWord: string := "all"
  const MyOrdersWord: string := "my orders"
  const RecentWord: string := "recent"
  const LatestWord: string := "latest"
  const ShippedWord: string := "shipped"
  const ProcessingWord: string := "processing"
  const DeliveredWord: string := "delivered"
  const CancelledWord: string := "cancelled"

  // ------------------------------------------------------------------ intent

  datatype Intent = OrderStatusInquiry | OrderHistory | TrackingInfo | GeneralInquiry | Unknown
  {
    /** The name carried in the response. */
    function Name(): string
    {
      match this
      case OrderStatusInquiry => "ORDER_STATUS_INQUIRY"
      case OrderHistory => "ORDER_HISTORY"
      case TrackingInfo => "TRACKING_INFO"
      case GeneralInquiry => "GENERAL_INQUIRY"
      case Unknown => "UNKNOWN"
    }
  }

  predicate AsksOrderStatus(lower: string)
  {
    Contains(lower, OrderWord) && (Contains(lower, StatusWord) || Contains(lower, WhereWord) || Contains(lower, TrackWord))
  }

  predicate AsksOrderHistory(lower: string)
  {
    Contains(lower, OrderWord) && (Contains(lower, HistoryWord) || Contains(lower, PastWord) || Contains(lower, PreviousWord))
  }

  predicate AsksTracking(lower: string)
  {
    Contains(lower, TrackWord) || Contains(lower, ShippingWord) || Contains(lower, DeliveryWord)
  }

  /**
   * analyzeIntent: the first keyword rule that holds on the lower-cased
   * message decides; the help/support rule and the default agree.
   */
  function AnalyzeIntent(message: string): (r: Intent)
    ensures r != Unknown
    ensures r == OrderStatusInquiry <==> AsksOrderStatus(Lower(message))
    ensures r == OrderHistory <==> !AsksOrderStatus(Lower(message)) && AsksOrderHistory(Lower(message))
    ensures r == TrackingInfo <==>
      !AsksOrderStatus(Lower(message)) && !AsksOrderHistory(Lower(message)) && AsksTracking(Lower(message))
    ensures r == GeneralInquiry <==>
      !AsksOrderStatus(Lower(message)) && !AsksOrderHistory(Lower(message)) && !AsksTracking(Lower(message))
  {
    var lower := Lower(message);
    if AsksOrderStatus(lower) then OrderStatusInquiry
    else if AsksOrderHistory(lower) then OrderHistory
    else if AsksTracking(lower) then TrackingInfo
    else if Contains(lower, HelpWord) || Contains(lower, SupportWord) then GeneralInquiry
    else GeneralInquiry
  }

  /** The classification does not depend on the case the message is typed in. */
  lemma IntentIgnoresCase(message: string)
    ensures AnalyzeIntent(Upper(message)) == AnalyzeIntent(message)
  {
    LowerOfUpper(message);
  }

  /** A message that mentions tracking is never a general inquiry. */
  lemma TrackingNeverGeneral(message: string)
    requires Contains(Lower(message), TrackWord)
    ensures AnalyzeIntent(message) in {OrderStatusInquiry, TrackingInfo}
  {
  }

  // -------------------------------------------------------------- confidence

  predicate HasHelpfulKeyword(aiResponse: string)
  {
    var lower := Lower(aiResponse);
    Contains(lower, OrderWord) || Contains(lower, HelpWord) || Contains(lower, CanWord)
  }

  /**
   * The confidence score in hundredths: 80, ten more for a reply longer than
   * twenty characters, five more for a helpful keyword, capped at 100.
   */
  function Confidence(aiResponse: string): (r: int)
    ensures 0 <= r <= 100
    ensures r in {80, 85, 90, 95}
    ensures r >= 90 <==> |aiResponse| > 20
    ensures r % 10 == 5 <==> HasHelpfulKeyword(aiResponse)
  {
    var score := 80 + (if |aiResponse| > 20 then 10 else 0) + (if HasHelpfulKeyword(aiResponse) then 5 else 0);
    if score < 100 then score else 100
  }

  /** calculateConfidence: the running score, raised step by step. */
  method CalculateConfidence(userMessage: string, aiResponse: string) returns (confidence: int)
    ensures confidence == Confidence(aiResponse)
  {
    var baseConfidence := 80;
    if |aiResponse| > 20 {
      baseConfidence := baseConfidence + 10;
    }
    var lowerResponse := Lower(aiResponse);
    if Contains(lowerResponse, OrderWord) || Contains(lowerResponse, HelpWord) || Contains(lowerResponse, CanWord) {
      baseConfidence := baseConfidence + 5;
    }
    confidence := if baseConfidence < 100 then baseConfidence else 100;
  }

  // --------------------------------------------------------- message parsing

  /** A whole token matching `ORD-\d+` (case-sensitive, ASCII digits). */
  predicate IsOrderNumberToken(w: string)
  {
    |w| > 4 && w[..4] == "ORD-" && forall k :: 4 <= k < |w| ==> IsDigit(w[k])
  }

  /** The first token that is an order number. */
  function FirstOrderNumber(words: seq<string>): (r: Option<string>)
    ensures r.None? <==> forall w :: w in words ==> !IsOrderNumberToken(w)
    ensures r.Some? ==>
      exists i :: 0 <= i < |words| && words[i] == r.value && IsOrderNumberToken(words[i])
        && forall j :: 0 <= j < i ==> !IsOrderNumberToken(words[j])
  {
    if words == [] then None
    else if IsOrderNumberToken(words[0]) then Some(words[0])
    else
      var r := FirstOrderNumber(words[1..]);
      assert forall j :: 0 < j < |words| ==> words[j] == words[1..][j - 1];
      r
  }

  /** The order number the message mentions, among its whitespace-separated tokens. */
  function OrderNumberIn(message: string): Option<string>
  {
    FirstOrderNumber(SplitOnWhitespace(message))
  }

  /** extractOrderNumber: scan the tokens and return the first match. */
  method ExtractOrderNumber(message: string) returns (orderNumber: Option<string>)
    ensures orderNumber == OrderNumberIn(message)
    ensures orderNumber.Some? ==> IsOrderNumberToken(orderNumber.value)
  {
    var words := SplitOnWhitespace(message);
    var i := 0;
    while i < |words|
      invariant 0 <= i <= |words|
      invariant FirstOrderNumber(words[i..]) == FirstOrderNumber(words)
    {
      assert words[i..][1..] == words[i + 1..];
      if IsOrderNumberToken(words[i]) {
        return Some(words[i]);
      }
      i := i + 1;
    }
    return None;
  }

  /** A token with trailing punctuation is not an order number. */
  lemma PunctuatedNumberNotMatched()
    ensures !IsOrderNumberToken("ORD-007?")
  {
    assert "ORD-007?"[7] == '?';
  }

  /** The order number in a message is one of its tokens, with nothing around it. */
  lemma {:induction false} ExtractedNumberIsToken(message: string)
    requires OrderNumberIn(message).Some?
    ensures OrderNumberIn(message).value in SplitOnWhitespace(message)
    ensures forall c :: c in OrderNumberIn(message).value ==> !IsJavaSpace(c)
  {
    var words := SplitOnWhitespace(message);
    var n := OrderNumberIn(message).value;
    var i :| 0 <= i < |words| && words[i] == n && IsOrderNumberToken(words[i]);
    assert n != "";
    if message != [] && IsJavaSpace(message[0]) {
      assert i > 0 && words[i] == Runs(message)[i - 1];
    } else if message != [] {
      assert words[i] == Runs(message)[i];
    }
  }

  /** extractStatus: the first status word, in the priority shipped, processing, delivered, cancelled. */
  function ExtractStatus(lower: string): (r: Option<string>)
    ensures r == Some(Shipped) <==> Contains(lower, ShippedWord)
    ensures r == Some(Processing) <==> !Contains(lower, ShippedWord) && Contains(lower, ProcessingWord)
    ensures r == Some(Delivered) <==>
      !Contains(lower, ShippedWord) && !Contains(lower, ProcessingWord) && Contains(lower, DeliveredWord)
    ensures r == Some(Cancelled) <==>
      !Contains(lower, ShippedWord) && !Contains(lower, ProcessingWord) && !Contains(lower, DeliveredWord)
      && Contains(lower, CancelledWord)
    ensures r.None? <==>
      !Contains(lower, ShippedWord) && !Contains(lower, ProcessingWord) && !Contains(lower, DeliveredWord)
      && !Contains(lower, CancelledWord)
  {
    if Contains(lower, ShippedWord) then Some(Shipped)
    else if Contains(lower, ProcessingWord) then Some(Processing)
    else if Contains(lower, DeliveredWord) then Some(Delivered)
    else if Contains(lower, CancelledWord) then Some(Cancelled)
    else None
  }

  // ---------------------------------------------------- order context blocks

  /** LocalDateTime.toString, as a rendering of the timestamp. */
  function RenderTimestamp(t: Timestamp): string
  {
    IntToString(t)
  }

  const SpecificHeader: string := "SPECIFIC ORDER INFORMATION:\n"
  const LastUpdatedLabel: string := "- Last Updated: "
  const ErrorLine: string := "ERROR: Unable to retrieve order information at this time.\n\n"
  const HistoryHeader: string := "CUSTOMER ORDER HISTORY:\n"
  const NoHistoryLine: string := "ORDER HISTORY: No orders found for this customer.\n\n"
  const RecentHeader: string := "RECENT ORDERS (Last 30 days):\n"
  const NoRecentLine: string := "RECENT ORDERS: No recent orders found.\n\n"

  const AccessDeniedLead: string :=
    "ACCESS DENIED: I'm sorry, but I can only provide information about your own orders. The order number '"
  const AccessDeniedTrail: string := "' does not belong to your account.\n\n"

  function AccessDeniedLine(orderNumber: string): string
  {
    AccessDeniedLead + orderNumber + AccessDeniedTrail
  }

  const NotFoundLead: string := "ORDER NOT FOUND: The order number '"
  const NotFoundTrail: string := "' was not found in our system.\n\n"

  function NotFoundLine(orderNumber: string): string
  {
    NotFoundLead + orderNumber + NotFoundTrail
  }

  /** One `label value` line of the specific-order block. */
  function FieldLine(caption: string, value: string): string
  {
    caption + value + "\n"
  }

  /** The lines of the block for an order the requester owns. */
  function SpecificOrderLines(o: Order): seq<string>
  {
    [ SpecificHeader,
      FieldLine("- Order Number: ", o.orderNumber),
      FieldLine("- Status: ", o.status),
      FieldLine("- Total Amount: $", FormatCents(o.totalAmount)),
      FieldLine("- Shipping Address: ", o.shippingAddress),
      FieldLine("- Created Date: ", RenderTimestamp(o.createdDate)) ]
    + (if o.updatedDate.Some? then [FieldLine(LastUpdatedLabel, RenderTimestamp(o.updatedDate.value))] else [])
    + ["\n"]
  }

  function Line(l: string): string { l }

  function SpecificOrderBlock(o: Order): string
  {
    JoinMap(SpecificOrderLines(o), Line)
  }

  /** A line of the "Last Updated" kind is in the block exactly when the order has an update date. */
  lemma LastUpdatedLineIffUpdated(o: Order)
    ensures (exists k :: 0 <= k < |SpecificOrderLines(o)| && StartsWith(SpecificOrderLines(o)[k], LastUpdatedLabel))
        <==> o.updatedDate.Some?
  {
    var lines := SpecificOrderLines(o);
    if o.updatedDate.Some? {
      var l := lines[6];
      assert l == LastUpdatedLabel + RenderTimestamp(o.updatedDate.value) + "\n";
      assert l[..|LastUpdatedLabel|] == LastUpdatedLabel;
    } else {
      forall k | 0 <= k < |lines|
        ensures !StartsWith(lines[k], LastUpdatedLabel)
      {
        if k == 0 {
          assert lines[0][0] == 'S';
          DifferAt(lines[0], LastUpdatedLabel, 0);
        } else if k == 1 {
          assert lines[1][2] == 'O';
          DifferAt(lines[1], LastUpdatedLabel, 2);
        } else if k == 2 {
          assert lines[2][2] == 'S';
          DifferAt(lines[2], LastUpdatedLabel, 2);
        } else if k == 3 {
          assert lines[3][2] == 'T';
          DifferAt(lines[3], LastUpdatedLabel, 2);
        } else if k == 4 {
          assert lines[4][2] == 'S';
          DifferAt(lines[4], LastUpdatedLabel, 2);
        } else if k == 5 {
          assert lines[5][2] == 'C';
          DifferAt(lines[5], LastUpdatedLabel, 2);
        } else {
          assert lines[k] == "\n";
        }
      }
    }
  }

  lemma FieldLineShowsValue(caption: string, value: string)
    ensures Contains(FieldLine(caption, value), value)
  {
    ContainsSelf(value);
    ContainsAppendRight(caption, value, value);
    ContainsAppendLeft(caption + value, "\n", value);
  }

  /** A line of the list occurs in the concatenation of the list. */
  lemma LineInBlock(lines: seq<string>, k: int, sub: string)
    requires 0 <= k < |lines| && Contains(lines[k], sub)
    ensures Contains(JoinMap(lines, Line), sub)
  {
    JoinMapAt(lines, Line, k);
    ContainsAppendRight(JoinMap(lines[..k], Line), lines[k], sub);
    ContainsAppendLeft(JoinMap(lines[..k], Line) + lines[k], JoinMap(lines[k + 1..], Line), sub);
  }

  /** The block of an owned order shows its number, status, amount, address and creation date. */
  lemma SpecificBlockShowsOrder(o: Order)
    ensures Contains(SpecificOrderBlock(o), o.orderNumber)
    ensures Contains(SpecificOrderBlock(o), o.status)
    ensures Contains(SpecificOrderBlock(o), FormatCents(o.totalAmount))
    ensures Contains(SpecificOrderBlock(o), o.shippingAddress)
    ensures Contains(SpecificOrderBlock(o), RenderTimestamp(o.createdDate))
  {
    var lines := SpecificOrderLines(o);
    FieldLineShowsValue("- Order Number: ", o.orderNumber);
    LineInBlock(lines, 1, o.orderNumber);
    FieldLineShowsValue("- Status: ", o.status);
    LineInBlock(lines, 2, o.status);
    FieldLineShowsValue("- Total Amount: $", FormatCents(o.totalAmount));
    LineInBlock(lines, 3, FormatCents(o.totalAmount));
    FieldLineShowsValue("- Shipping Address: ", o.shippingAddress);
    LineInBlock(lines, 4, o.shippingAddress);
    FieldLineShowsValue("- Created Date: ", RenderTimestamp(o.createdDate));
    LineInBlock(lines, 5, RenderTimestamp(o.createdDate));
  }

  /** "- Order %s: %s, $%.2f, %s": a line of the history and recent lists. */
  function SummaryLine(o: Order): string
  {
    "- Order " + o.orderNumber + ": " + o.status + ", $" + FormatCents(o.totalAmount) + ", "
    + RenderTimestamp(o.createdDate) + "\n"
  }

  /** "- Order %s: $%.2f, %s": a line of the status list. */
  function StatusLine(o: Order): string
  {
    "- Order " + o.orderNumber + ": $" + FormatCents(o.totalAmount) + ", " + RenderTimestamp(o.createdDate) + "\n"
  }

  /** A header, one line per order, and a blank line. */
  function ListBlock(header: string, orders: seq<Order>, line: Order -> string): string
  {
    header + JoinMap(orders, line) + "\n"
  }

  function StatusHeader(status: string): string
  {
    "ORDERS WITH STATUS '" + status + "':\n"
  }

  function NoStatusLine(status: string): string
  {
    "No orders found with status '" + status + "'.\n\n"
  }

  // ------------------------------------------------------------ the sections

  /** What one section of the order context produced: its text, or the exception its lookup threw. */
  datatype Section = Rendered(text: string) | Threw

  predicate AsksAllOrders(lower: string)
  {
    Contains(lower, OrderWord) && (Contains(lower, HistoryWord) || Contains(lower, AllWord) || Contains(lower, MyOrdersWord))
  }

  predicate AsksRecent(lower: string)
  {
    Contains(lower, RecentWord) || Contains(lower, LatestWord)
  }

  predicate AsksByStatus(lower: string)
  {
    Contains(lower, ShippedWord) || Contains(lower, ProcessingWord) || Contains(lower, DeliveredWord)
  }

  /**
   * The section for the order named in the message: nothing without a
   * number; otherwise the block of an owned order, the access-denied line
   * for someone else's, or the not-found line.
   */
  function NumberSection(message: string, customerId: int, store: OrderStore): (s: Section)
    ensures OrderNumberIn(message).None? ==> s == Rendered("")
    ensures s == Threw <==> OrderNumberIn(message).Some? && NumberLookup in store.failing
  {
    match OrderNumberIn(message)
    case None => Rendered("")
    case Some(n) =>
      if NumberLookup in store.failing then Threw
      else match FindByOrderNumber(store.orders, n)
        case None => Rendered(NotFoundLine(n))
        case Some(o) => Rendered(if o.customerId != customerId then AccessDeniedLine(n) else SpecificOrderBlock(o))
  }

  /** A number that no order has gives only the not-found line naming it. */
  lemma NumberSectionNotFound(message: string, customerId: int, store: OrderStore)
    requires OrderNumberIn(message).Some? && NumberLookup !in store.failing
    requires forall o :: o in store.orders ==> o.orderNumber != OrderNumberIn(message).value
    ensures NumberSection(message, customerId, store) == Rendered(NotFoundLine(OrderNumberIn(message).value))
  {
    assert FindByOrderNumber(store.orders, OrderNumberIn(message).value).None?;
  }

  /**
   * The order with the number decides the section: its block when the
   * requester owns it, and otherwise the access-denied line, which names
   * only the number.
   */
  lemma NumberSectionByOwner(message: string, customerId: int, store: OrderStore, i: int)
    requires OrderNumberIn(message).Some? && NumberLookup !in store.failing
    requires UniqueNumbers(store.orders)
    requires 0 <= i < |store.orders| && store.orders[i].orderNumber == OrderNumberIn(message).value
    ensures store.orders[i].customerId == customerId ==>
      NumberSection(message, customerId, store) == Rendered(SpecificOrderBlock(store.orders[i]))
    ensures store.orders[i].customerId != customerId ==>
      NumberSection(message, customerId, store) == Rendered(AccessDeniedLine(OrderNumberIn(message).value))
  {
    var n := OrderNumberIn(message).value;
    var o := store.orders[i];
    assert o in store.orders;
    var found := FindByOrderNumber(store.orders, n);
    assert found.Some?;
    assert found.value == o;
    if o.customerId == customerId {
      assert NumberSection(message, customerId, store) == Rendered(SpecificOrderBlock(o));
    } else {
      assert found.value.customerId != customerId;
      assert NumberSection(message, customerId, store) == Rendered(AccessDeniedLine(n));
    }
  }

  /** The full order list, when the message asks for the order history or all orders. */
  function HistorySection(lower: string, customerId: int, store: OrderStore): Section
  {
    if !AsksAllOrders(lower) then Rendered("")
    else if CustomerLookup in store.failing then Threw
    else
      var orders := FindByCustomerId(store.orders, customerId);
      Rendered(if orders == [] then NoHistoryLine else ListBlock(HistoryHeader, orders, SummaryLine))
  }

  /** The last thirty days' orders, when the message asks for recent or latest ones. */
  function RecentSection(lower: string, customerId: int, store: OrderStore): Section
  {
    if !AsksRecent(lower) then Rendered("")
    else if RecentLookup in store.failing then Threw
    else
      var orders := FindRecentOrdersByCustomerId(store.orders, customerId, store.currentDate);
      Rendered(if orders == [] then NoRecentLine else ListBlock(RecentHeader, orders, SummaryLine))
  }

  /** The orders with the status the message names, when it names shipped, processing or delivered. */
  function StatusSection(lower: string, customerId: int, store: OrderStore): Section
  {
    if !AsksByStatus(lower) then Rendered("")
    else match ExtractStatus(lower)
      case None => Rendered("")
      case Some(st) =>
        if CustomerStatusLookup in store.failing then Threw
        else
          var status := Upper(st);
          var orders := FindByCustomerIdAndStatus(store.orders, customerId, status);
          Rendered(if orders == [] then NoStatusLine(status) else ListBlock(StatusHeader(status), orders, StatusLine))
  }

  /** The three sections drawn from the requester's own orders, in the order they are appended. */
  function CustomerSections(lower: string, customerId: int, store: OrderStore): (ss: seq<Section>)
    ensures |ss| == 3
  {
    [ HistorySection(lower, customerId, store),
      RecentSection(lower, customerId, store),
      StatusSection(lower, customerId, store) ]
  }

  /** The four sections in the order they are appended: the numbered order's first. */
  function OrderSections(message: string, customerId: int, store: OrderStore): (ss: seq<Section>)
    ensures |ss| == 4
  {
    [NumberSection(message, customerId, store)] + CustomerSections(Lower(message), customerId, store)
  }

  /** Sections appended in turn; the first that throws ends the text with the error line. */
  function Assemble(sections: seq<Section>): string
  {
    if sections == [] then ""
    else match sections[0]
      case Rendered(t) => t + Assemble(sections[1..])
      case Threw => ErrorLine
  }

  function TextOf(s: Section): string
  {
    if s.Rendered? then s.text else ""
  }

  /** The order context for a message from `customerId`. */
  function OrderContext(message: string, customerId: int, store: OrderStore): string
  {
    Assemble(OrderSections(message, customerId, store))
  }

  lemma JoinMapCons<T>(x: T, rest: seq<T>, f: T -> string)
    ensures JoinMap([x] + rest, f) == f(x) + JoinMap(rest, f)
  {
    JoinMapAppend([x], rest, f);
    assert [x][..0] == [];
  }

  /** With no failure, the text is every section's text, in order. */
  lemma {:induction false} AssembleWithoutFailure(sections: seq<Section>)
    requires forall i :: 0 <= i < |sections| ==> sections[i].Rendered?
    ensures Assemble(sections) == JoinMap(sections, TextOf)
  {
    if sections != [] {
      AssembleWithoutFailure(sections[1..]);
      assert sections == [sections[0]] + sections[1..];
      JoinMapCons(sections[0], sections[1..], TextOf);
    }
  }

  /** A failure keeps the text built before it, adds the error line, and skips every later section. */
  lemma {:induction false} AssembleStopsAtFailure(sections: seq<Section>, k: int)
    requires 0 <= k < |sections| && sections[k] == Threw
    requires forall i :: 0 <= i < k ==> sections[i].Rendered?
    ensures Assemble(sections) == JoinMap(sections[..k], TextOf) + ErrorLine
  {
    if k > 0 {
      var rest := sections[1..];
      var before := rest[..k - 1];
      assert forall i :: 0 <= i < k - 1 ==> rest[i] == sections[i + 1];
      AssembleStopsAtFailure(rest, k - 1);
      assert sections[..k] == [sections[0]] + before;
      JoinMapCons(sections[0], before, TextOf);
      AppendAssoc(TextOf(sections[0]), JoinMap(before, TextOf), ErrorLine);
    }
  }

  /** Sections that all rendered nothing assemble to nothing. */
  lemma {:induction false} AssembleSilent(sections: seq<Section>)
    requires forall i :: 0 <= i < |sections| ==> sections[i] == Rendered("")
    ensures Assemble(sections) == ""
  {
    if sections != [] {
      AssembleSilent(sections[1..]);
    }
  }

  /** A message that asks for nothing gives an empty order context. */
  lemma QuietMessageNoContext(message: string, customerId: int, store: OrderStore)
    requires OrderNumberIn(message).None?
    requires !AsksAllOrders(Lower(message)) && !AsksRecent(Lower(message)) && !AsksByStatus(Lower(message))
    ensures OrderContext(message, customerId, store) == ""
  {
    var lower := Lower(message);
    assert NumberSection(message, customerId, store) == Rendered("");
    assert HistorySection(lower, customerId, store) == Rendered("");
    assert RecentSection(lower, customerId, store) == Rendered("");
    assert StatusSection(lower, customerId, store) == Rendered("");
    AssembleSilent(OrderSections(message, customerId, store));
  }

  /** A message whose only status word is "cancelled" gets no status section. */
  lemma CancelledAloneNoStatusSection(lower: string, customerId: int, store: OrderStore)
    requires Contains(lower, CancelledWord)
    requires !Contains(lower, ShippedWord) && !Contains(lower, ProcessingWord) && !Contains(lower, DeliveredWord)
    ensures ExtractStatus(lower) == Some(Cancelled)
    ensures StatusSection(lower, customerId, store) == Rendered("")
  {
  }

  /** Once the status section is entered, the status found is never CANCELLED. */
  lemma StatusSectionNeverCancelled(lower: string)
    requires AsksByStatus(lower)
    ensures ExtractStatus(lower).Some? && ExtractStatus(lower).value != Cancelled
  {
  }

  lemma NumberSectionsAgree(message: string, customerId: int, s1: OrderStore, s2: OrderStore)
    requires SameForCustomer(s1, s2, customerId)
    ensures NumberSection(message, customerId, s1) == NumberSection(message, customerId, s2)
  {
    var n := OrderNumberIn(message);
    if n.Some? {
      FindByOrderNumberAgree(s1.orders, s2.orders, n.value, customerId);
    }
  }

  lemma HistorySectionsAgree(lower: string, customerId: int, s1: OrderStore, s2: OrderStore)
    requires SameForCustomer(s1, s2, customerId)
    ensures HistorySection(lower, customerId, s1) == HistorySection(lower, customerId, s2)
  {
    CustomerQueriesAgree(s1, s2, customerId, "");
  }

  lemma RecentSectionsAgree(lower: string, customerId: int, s1: OrderStore, s2: OrderStore)
    requires SameForCustomer(s1, s2, customerId)
    ensures RecentSection(lower, customerId, s1) == RecentSection(lower, customerId, s2)
  {
    CustomerQueriesAgree(s1, s2, customerId, "");
  }

  lemma StatusSectionsAgree(lower: string, customerId: int, s1: OrderStore, s2: OrderStore)
    requires SameForCustomer(s1, s2, customerId)
    ensures StatusSection(lower, customerId, s1) == StatusSection(lower, customerId, s2)
  {
    var st := ExtractStatus(lower);
    if st.Some? {
      CustomerQueriesAgree(s1, s2, customerId, Upper(st.value));
    }
  }

  /**
   * Confidentiality of other customers' orders: two stores that differ only
   * in the contents of orders the requester does not own give the requester
   * the same order context. The access-denied line carries nothing but the
   * number the requester typed.
   */
  lemma OrderContextConfidential(message: string, customerId: int, s1: OrderStore, s2: OrderStore)
    requires SameForCustomer(s1, s2, customerId)
    ensures OrderContext(message, customerId, s1) == OrderContext(message, customerId, s2)
  {
    NumberSectionsAgree(message, customerId, s1, s2);
    HistorySectionsAgree(Lower(message), customerId, s1, s2);
    RecentSectionsAgree(Lower(message), customerId, s1, s2);
    StatusSectionsAgree(Lower(message), customerId, s1, s2);
    assert OrderSections(message, customerId, s1) == OrderSections(message, customerId, s2);
  }

  // ------------------------------------------------- the order context method

  /** The StringBuilder loop over an order list: header, one line per order, blank line. */
  method AppendOrderList(context: string, header: string, orders: seq<Order>, line: Order -> string)
    returns (r: string)
    ensures r == context + ListBlock(header, orders, line)
  {
    r := context + header;
    var i := 0;
    while i < |orders|
      invariant 0 <= i <= |orders|
      invariant r == context + header + JoinMap(orders[..i], line)
    {
      assert orders[..i + 1][..i] == orders[..i];
      r := r + line(orders[i]);
      i := i + 1;
    }
    assert orders[..|orders|] == orders;
    r := r + "\n";
  }

  /** `after` is `before` with the section appended: its text, or the error line when it threw (`ok` false). */
  predicate Appended(before: string, section: Section, after: string, ok: bool)
  {
    match section
    case Rendered(t) => ok && after == before + t
    case Threw => !ok && after == before + ErrorLine
  }

  /** The block for the order named in the message, with the ownership check. */
  method AppendNumberSection(context: string, message: string, customerId: int, store: OrderStore)
    returns (r: string, ok: bool)
    ensures Appended(context, NumberSection(message, customerId, store), r, ok)
  {
    var orderNumber := ExtractOrderNumber(message);
    if orderNumber.None? {
      return context, true;
    }
    var n := orderNumber.value;
    if NumberLookup in store.failing {
      return context + ErrorLine, false;
    }
    var order := FindByOrderNumber(store.orders, n);
    if order.Some? {
      var o := order.value;
      if o.customerId != customerId {
        r := context + AccessDeniedLine(n);
      } else {
        r := context + SpecificOrderBlock(o);
      }
    } else {
      r := context + NotFoundLine(n);
    }
    ok := true;
  }

  /** The history block, when the message asks for the order history or all orders. */
  method AppendHistorySection(context: string, lower: string, customerId: int, store: OrderStore)
    returns (r: string, ok: bool)
    ensures Appended(context, HistorySection(lower, customerId, store), r, ok)
  {
    if !(Contains(lower, OrderWord) && (Contains(lower, HistoryWord) || Contains(lower, AllWord) || Contains(lower, MyOrdersWord))) {
      return context, true;
    }
    if CustomerLookup in store.failing {
      return context + ErrorLine, false;
    }
    var customerOrders := FindByCustomerId(store.orders, customerId);
    if customerOrders != [] {
      r := AppendOrderList(context, HistoryHeader, customerOrders, SummaryLine);
    } else {
      r := context + NoHistoryLine;
    }
    ok := true;
  }

  /** The recent-orders block, when the message asks for recent or latest orders. */
  method AppendRecentSection(context: string, lower: string, customerId: int, store: OrderStore)
    returns (r: string, ok: bool)
    ensures Appended(context, RecentSection(lower, customerId, store), r, ok)
  {
    if !(Contains(lower, RecentWord) || Contains(lower, LatestWord)) {
      return context, true;
    }
    if RecentLookup in store.failing {
      return context + ErrorLine, false;
    }
    var recentOrders := FindRecentOrdersByCustomerId(store.orders, customerId, store.currentDate);
    if recentOrders != [] {
      r := AppendOrderList(context, RecentHeader, recentOrders, SummaryLine);
    } else {
      r := context + NoRecentLine;
    }
    ok := true;
  }

  /** The block of orders with the status the message names. */
  method AppendStatusSection(context: string, lower: string, customerId: int, store: OrderStore)
    returns (r: string, ok: bool)
    ensures Appended(context, StatusSection(lower, customerId, store), r, ok)
  {
    if !(Contains(lower, ShippedWord) || Contains(lower, ProcessingWord) || Contains(lower, DeliveredWord)) {
      return context, true;
    }
    var status := ExtractStatus(lower);
    if status.None? {
      return context, true;
    }
    if CustomerStatusLookup in store.failing {
      return context + ErrorLine, false;
    }
    var st := Upper(status.value);
    var statusOrders := FindByCustomerIdAndStatus(store.orders, customerId, st);
    if statusOrders != [] {
      r := AppendOrderList(context, StatusHeader(st), statusOrders, StatusLine);
    } else {
      r := context + NoStatusLine(st);
    }
    ok := true;
  }

  /**
   * One step of the assembly: with `total` the text so far followed by the
   * sections from `k` on, appending the section at `k` leaves the sections
   * after it to come, or, when it threw, ends the text.
   */
  lemma AssembleStep(sections: seq<Section>, k: int, total: string, before: string, after: string, ok: bool)
    requires 0 <= k < |sections|
    requires total == before + Assemble(sections[k..])
    requires Appended(before, sections[k], after, ok)
    ensures ok ==> total == after + Assemble(sections[k + 1..])
    ensures !ok ==> total == after
  {
    assert sections[k..][1..] == sections[k + 1..];
    if ok {
      AppendAssoc(before, sections[k].text, Assemble(sections[k + 1..]));
    }
  }

  /**
   * The history, recent and status sections appended in turn to the text
   * built so far; the first lookup that throws appends the error line and
   * ends it.
   */
  method AppendCustomerSections(context: string, lower: string, customerId: int, store: OrderStore)
    returns (r: string)
    ensures r == context + Assemble(CustomerSections(lower, customerId, store))
  {
    ghost var sections := CustomerSections(lower, customerId, store);
    ghost var total := context + Assemble(sections);
    var ok;
    assert sections[0..] == sections;

    r, ok := AppendHistorySection(context, lower, customerId, store);
    AssembleStep(sections, 0, total, context, r, ok);
    if !ok {
      return;
    }
    ghost var before := r;
    r, ok := AppendRecentSection(r, lower, customerId, store);
    AssembleStep(sections, 1, total, before, r, ok);
    if !ok {
      return;
    }
    before := r;
    r, ok := AppendStatusSection(r, lower, customerId, store);
    AssembleStep(sections, 2, total, before, r, ok);
    assert sections[3..] == [];
  }

  /**
   * retrieveOrderContext: append the sections to one builder in turn; an
   * exception from a lookup appends the error line and ends the method.
   */
  method RetrieveOrderContext(message: string, customerId: int, store: OrderStore) returns (context: string)
    ensures context == OrderContext(message, customerId, store)
  {
    ghost var sections := OrderSections(message, customerId, store);
    ghost var total := Assemble(sections);
    var lower := Lower(message);
    var ok;
    assert sections[0..] == sections;

    context, ok := AppendNumberSection("", message, customerId, store);
    AssembleStep(sections, 0, total, "", context, ok);
    if !ok {
      return;
    }
    assert sections[1..] == CustomerSections(lower, customerId, store);
    context := AppendCustomerSections(context, lower, customerId, store);
  }

  // ------------------------------------------------------ prompt and response

  /** getCustomerIdFromEmail: the enabled customer's id, or 1 when there is none. */
  function CustomerIdFromEmail(customers: seq<Customer>, email: string): (id: int)
    ensures (forall c :: c in customers ==> !(c.email == email && c.enabled)) ==> id == 1
    ensures UniqueEmails(customers) ==>
      forall i :: 0 <= i < |customers| && customers[i].email == email && customers[i].enabled ==> id == customers[i].id
  {
    match FindByEmailAndEnabled(customers, email, true)
    case None => 1
    case Some(c) => c.id
  }

  /**
   * The fixed instructions of createSystemPromptWithRAG, before and after the
   * slot the context goes into. The operations below take the template as a
   * value, so that what is proved of them holds for any wording; the service's
   * own wording is ChatTemplate.
   */
  datatype PromptTemplate = PromptTemplate(head: string, tail: string)

  const PromptHead: string :=
    "You are a helpful and polite customer service AI assistant for an online order status service.\n"
    + "Your role is to help customers with their order-related inquiries.\n"
    + "\n"
    + "Key guidelines:\n"
    + "1. Always be polite, professional, and customer-focused\n"
    + "2. Help customers check order status, order history, and tracking information\n"
    + "3. Ask for order numbers when needed to provide specific information\n"
    + "4. Provide clear, concise, and helpful responses\n"
    + "5. If you don't have specific order information, guide customers to provide their order number\n"
    + "6. Be empathetic and understanding of customer concerns\n"
    + "7. Keep responses conversational but professional\n"
    + "8. If you can't help with a specific request, politely redirect to human support\n"
    + "9. Use the provided knowledge base information to give accurate and detailed responses\n"
    + "10. When order data is available, provide specific details about order status, amounts, and dates\n"
    + "11. If an order is not found, politely inform the customer and ask them to verify the order number\n"
    + "\n"
    + "Common customer inquiries you can help with:\n"
    + "- Order status checks (provide specific order number like ORD-001)\n"
    + "- Order history requests\n"
    + "- Tracking information\n"
    + "- General order-related questions\n"
    + "\n"
    + "Available order statuses:\n"
    + "- PROCESSING: Order is being prepared\n"
    + "- SHIPPED: Order has been shipped\n"
    + "- DELIVERED: Order has been delivered\n"
    + "- CANCELLED: Order has been cancelled\n"
    + "\n"
    + "Knowledge Base Context and Order Data:\n"

  const PromptTail: string :=
    "\n"
    + "\n"
    + "Remember: You're here to make the customer experience smooth and helpful!\n"
    + "Use the knowledge base information and order data to provide accurate and helpful responses.\n"
    + "If specific order information is provided, use it to give detailed, personalized responses.\n"

  const ChatTemplate: PromptTemplate := PromptTemplate(PromptHead, PromptTail)

  /** createSystemPromptWithRAG: the fixed instructions with the context in its slot. */
  function SystemPrompt(template: PromptTemplate, context: string): (r: string)
    ensures |r| == |template.head| + |context| + |template.tail|
    ensures r[|template.head|..|template.head| + |context|] == context
  {
    template.head + context + template.tail
  }

  /** The context the model is given: the knowledge text, a blank line, the order text. */
  function CombinedContext(knowledgeContext: string, orderContext: string): (r: string)
    ensures |r| == |knowledgeContext| + 2 + |orderContext|
    ensures r[..|knowledgeContext|] == knowledgeContext
    ensures r[|knowledgeContext| + 2..] == orderContext
  {
    knowledgeContext + "\n\n" + orderContext
  }

  /** The number of knowledge documents the chat asks for. */
  const KnowledgeLimit: int := 3

  /** The system prompt processMessage sends for `message` from `customerEmail`. */
  function ChatPrompt(
    template: PromptTemplate, message: string, customerEmail: string,
    customers: seq<Customer>, store: OrderStore,
    embed: string -> Option<string>,
    findSimilar: (string, int) -> Option<seq<Row>>): string
  {
    var customerId := CustomerIdFromEmail(customers, customerEmail);
    var knowledge := KnowledgeText(RelevantDocuments(message, KnowledgeLimit, embed, findSimilar));
    SystemPrompt(template, CombinedContext(knowledge, OrderContext(message, customerId, store)))
  }

  /**
   * The prompt, and so the whole exchange with the model, is the same for two
   * stores that differ only in orders the requester does not own.
   */
  lemma PromptConfidential(
    template: PromptTemplate, message: string, customerEmail: string,
    customers: seq<Customer>, s1: OrderStore, s2: OrderStore,
    embed: string -> Option<string>,
    findSimilar: (string, int) -> Option<seq<Row>>)
    requires SameForCustomer(s1, s2, CustomerIdFromEmail(customers, customerEmail))
    ensures ChatPrompt(template, message, customerEmail, customers, s1, embed, findSimilar)
         == ChatPrompt(template, message, customerEmail, customers, s2, embed, findSimilar)
  {
    OrderContextConfidential(message, CustomerIdFromEmail(customers, customerEmail), s1, s2);
  }

  datatype ChatResponse = ChatResponse(message: string, intent: Intent, confidence: int)

  const FallbackResponse: ChatResponse := ChatResponse(
    "I apologize, but I'm having trouble processing your request right now. Please try again in a moment.",
    Unknown, 0)

  /**
   * processMessage: gather the knowledge and order context, ask the model,
   * classify and score. A failing completion gives the fixed fallback reply;
   * every other collaborator's failure is absorbed on the way.
   */
  method ProcessMessage(
    template: PromptTemplate, message: string, customerEmail: string,
    customers: seq<Customer>, store: OrderStore,
    embed: string -> Option<string>,
    findSimilar: (string, int) -> Option<seq<Row>>,
    complete: (string, string) -> Option<string>)
    returns (response: ChatResponse)
    ensures var reply := complete(ChatPrompt(template, message, customerEmail, customers, store, embed, findSimilar), message);
      && (reply.None? ==> response == FallbackResponse)
      && (reply.Some? ==> response == ChatResponse(reply.value, AnalyzeIntent(message), Confidence(reply.value)))
    ensures response.intent == Unknown <==>
      complete(ChatPrompt(template, message, customerEmail, customers, store, embed, findSimilar), message).None?
    ensures 0 <= response.confidence <= 100
  {
    var customerId := CustomerIdFromEmail(customers, customerEmail);
    var relevantDocs := RetrieveRelevantDocuments(message, KnowledgeLimit, embed, findSimilar);
    var knowledgeContext := BuildContext(relevantDocs);
    var orderContext := RetrieveOrderContext(message, customerId, store);
    var combinedContext := knowledgeContext + "\n\n" + orderContext;
    var systemPrompt := SystemPrompt(template, combinedContext);
    var aiResponse := complete(systemPrompt, message);
    if aiResponse.None? {
      return FallbackResponse;
    }
    var intent := AnalyzeIntent(message);
    var confidence := CalculateConfidence(message, aiResponse.value);
    response := ChatResponse(aiResponse.value, intent, confidence);
  }
}
