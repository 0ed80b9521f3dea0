/**
 * The authentication service over the customer and order tables:
 * registration (refusing a taken email, saving the customer with the
 * encoder's hash, then three sample orders, all in one transaction),
 * login (one error for an unknown account and for a wrong password),
 * account creation, and resolving a token to its enabled customer.
 *
 * The password encoder, the token generator and the token parser are
 * collaborators given to the service; ids come from the table's identity
 * sequence. Saving an order stamps it with the time of the save: the
 * entity's pre-persist hook replaces any dates set before.
 */
module Auth {
  import opened Wrappers
  import opened Text
  import opened Orders
  import opened Customers

  datatype AuthError =
    | EmailAlreadyExists    // IllegalArgumentException("Email already exists")
    | InvalidCredentials    // BadCredentialsException("Invalid email or password")
    | OrderNumberTaken      // the unique constraint on order_number, which rolls the registration back

  datatype LoginResponse = LoginResponse(
    token: string,
    customerId: int,
    email: string,
    firstName: string,
    lastName: string,
    expiresIn: int)

  /** "ORD-" + String.format("%03d", customerId) + suffix. */
  function DummyNumber(customerId: int, suffix: string): string
  {
    "ORD-" + Format03d(customerId) + suffix
  }

  const FirstAddress: string := "123 Main St, New York, NY 10001"
  const SecondAddress: string := "456 Oak Ave, Los Angeles, CA 90210"
  const ThirdAddress: string := "789 Pine St, Chicago, IL 60601"

  /** The three sample orders of a new customer, as the pre-persist hook stamps them. */
  function DummyOrders(customerId: int, now: Timestamp): (r: seq<Order>)
    ensures |r| == 3
    ensures forall k :: 0 <= k < 3 ==> r[k].customerId == customerId && r[k].createdDate == now
    ensures forall j, k :: 0 <= j < k < 3 ==> r[j].orderNumber != r[k].orderNumber
    ensures [r[0].status, r[1].status, r[2].status] == [Processing, Shipped, Delivered]
    ensures r[0].orderNumber == "ORD-" + Format03d(customerId) + "-001"
    ensures r[1].orderNumber == "ORD-" + Format03d(customerId) + "-002"
    ensures r[2].orderNumber == "ORD-" + Format03d(customerId) + "-003"
    ensures [r[0].totalAmount, r[1].totalAmount, r[2].totalAmount] == [19999, 14950, 8999]
    ensures [r[0].shippingAddress, r[1].shippingAddress, r[2].shippingAddress] == [FirstAddress, SecondAddress, ThirdAddress]
  {
    var prefix := "ORD-" + Format03d(customerId);
    var r := [
      Order(DummyNumber(customerId, "-001"), customerId, Processing, 19999,
            FirstAddress, now, Some(now)),
      Order(DummyNumber(customerId, "-002"), customerId, Shipped, 14950,
            SecondAddress, now, Some(now)),
      Order(DummyNumber(customerId, "-003"), customerId, Delivered, 8999,
            ThirdAddress, now, Some(now))];
    assert r[0].orderNumber[|prefix| + 3] == '1';
    assert r[1].orderNumber[|prefix| + 3] == '2';
    assert r[2].orderNumber[|prefix| + 3] == '3';
    r
  }

  /** No order in `taken` has the number `n`. */
  predicate NumberFree(taken: seq<Order>, n: string)
  {
    forall o :: o in taken ==> o.orderNumber != n
  }

  /** None of the numbers of `added` is taken. */
  predicate NumbersFree(taken: seq<Order>, added: seq<Order>)
  {
    forall d :: d in added ==> NumberFree(taken, d.orderNumber)
  }

  /**
   * Saving `added` in turn stops at its k-th order: the ones before it had
   * free numbers, and its own number is taken.
   */
  predicate StoppedAt(taken: seq<Order>, added: seq<Order>, k: int)
  {
    0 <= k < |added| && NumbersFree(taken, added[..k]) && !NumberFree(taken, added[k].orderNumber)
  }

  /**
   * Three orders with distinct numbers can all be saved, one after the
   * other, exactly when none of their numbers is taken beforehand.
   */
  lemma SavedInTurn(taken: seq<Order>, added: seq<Order>)
    requires |added| == 3
    requires forall j, k :: 0 <= j < k < 3 ==> added[j].orderNumber != added[k].orderNumber
    ensures NumbersFree(taken, added) <==>
      && NumberFree(taken, added[0].orderNumber)
      && NumberFree(taken + [added[0]], added[1].orderNumber)
      && NumberFree(taken + [added[0], added[1]], added[2].orderNumber)
  {
    assert added == [added[0], added[1], added[2]];
  }

  class AuthService {
    var customers: seq<Customer>
    var orders: seq<Order>
    /** The next value of the customers table's identity sequence. */
    var nextId: int

    const encode: string -> string
    const matches: (string, string) -> bool
    const generateToken: (int, string) -> string
    const extractEmail: string -> Option<string>
    const expirationTime: int

    /** The tables' constraints: unique emails and order numbers, ids issued by the sequence. */
    ghost predicate Valid()
      reads this
    {
      && UniqueEmails(customers)
      && UniqueNumbers(orders)
      && 0 < nextId
      && forall i :: 0 <= i < |customers| ==> 0 < customers[i].id < nextId
    }

    constructor(
      customers: seq<Customer>, orders: seq<Order>, nextId: int,
      encode: string -> string, matches: (string, string) -> bool,
      generateToken: (int, string) -> string, extractEmail: string -> Option<string>,
      expirationTime: int)
      requires UniqueEmails(customers) && UniqueNumbers(orders) && 0 < nextId
      requires forall i :: 0 <= i < |customers| ==> 0 < customers[i].id < nextId
      ensures Valid()
      ensures this.customers == customers && this.orders == orders && this.nextId == nextId
      ensures this.encode == encode && this.matches == matches
      ensures this.generateToken == generateToken && this.extractEmail == extractEmail
      ensures this.expirationTime == expirationTime
    {
      this.customers := customers;
      this.orders := orders;
      this.nextId := nextId;
      this.encode := encode;
      this.matches := matches;
      this.generateToken := generateToken;
      this.extractEmail := extractEmail;
      this.expirationTime := expirationTime;
    }

    /** orderRepository.save of a new order: refused when its number is taken. */
    method SaveOrder(order: Order) returns (saved: bool)
      requires Valid()
      modifies this
      ensures Valid()
      ensures saved <==> NumberFree(old(orders), order.orderNumber)
      ensures orders == if saved then old(orders) + [order] else old(orders)
      ensures customers == old(customers) && nextId == old(nextId)
    {
      if FindByOrderNumber(orders, order.orderNumber).Some? {
        return false;
      }
      AppendKeepsNumbersUnique(orders, order);
      orders := orders + [order];
      return true;
    }

    /**
     * createDummyOrders: save the three sample orders one after the other;
     * the first refused save ends it, leaving the ones before it saved.
     */
    method CreateDummyOrders(customerId: int, now: Timestamp) returns (ok: bool)
      requires Valid()
      modifies this
      ensures Valid()
      ensures ok <==> NumbersFree(old(orders), DummyOrders(customerId, now))
      ensures ok ==> orders == old(orders) + DummyOrders(customerId, now)
      ensures !ok ==>
        exists k :: StoppedAt(old(orders), DummyOrders(customerId, now), k)
                    && orders == old(orders) + DummyOrders(customerId, now)[..k]
      ensures customers == old(customers) && nextId == old(nextId)
    {
      ok := SaveThree(DummyOrders(customerId, now));
    }

    /** Three saves one after the other, stopping at the first refused one. */
    method SaveThree(added: seq<Order>) returns (ok: bool)
      requires Valid()
      requires |added| == 3
      requires forall j, k :: 0 <= j < k < 3 ==> added[j].orderNumber != added[k].orderNumber
      modifies this
      ensures Valid()
      ensures ok <==> NumbersFree(old(orders), added)
      ensures ok ==> orders == old(orders) + added
      ensures !ok ==> exists k :: StoppedAt(old(orders), added, k) && orders == old(orders) + added[..k]
      ensures customers == old(customers) && nextId == old(nextId)
    {
      SavedInTurn(orders, added);
      ghost var before := orders;
      var saved := SaveOrder(added[0]);
      if !saved {
        assert StoppedAt(before, added, 0) && orders == before + added[..0];
        return false;
      }
      saved := SaveOrder(added[1]);
      if !saved {
        assert added[..1] == [added[0]];
        assert StoppedAt(before, added, 1) && orders == before + added[..1];
        return false;
      }
      saved := SaveOrder(added[2]);
      if !saved {
        assert added[..2] == [added[0], added[1]];
        assert StoppedAt(before, added, 2) && orders == before + added[..2];
        return false;
      }
      assert added == [added[0], added[1], added[2]];
      return true;
    }

    /**
     * registerCustomer, one transaction: refuse a taken email; save the
     * customer, enabled, with the encoded password; save the sample orders;
     * answer with a token for the new id. A refused order save rolls the
     * tables back; the identity sequence keeps its advance.
     */
    method RegisterCustomer(email: string, password: string, firstName: string, lastName: string, now: Timestamp)
      returns (r: Result<LoginResponse, AuthError>)
      requires Valid()
      modifies this
      ensures Valid()
      ensures old(ExistsByEmail(customers, email)) ==> r == Failure(EmailAlreadyExists) && nextId == old(nextId)
      ensures r.Failure? ==> customers == old(customers) && orders == old(orders)
      ensures r == Failure(EmailAlreadyExists) <==> old(ExistsByEmail(customers, email))
      ensures r.Failure? && !old(ExistsByEmail(customers, email)) ==> r == Failure(OrderNumberTaken)
      ensures r == Failure(OrderNumberTaken) ==> nextId == old(nextId) + 1
      ensures r.Success? <==>
        !old(ExistsByEmail(customers, email))
        && NumbersFree(old(orders), DummyOrders(old(nextId), now))
      ensures r.Success? ==>
        var id := old(nextId);
        && customers == old(customers) + [Customer(id, email, encode(password), firstName, lastName, None, None, true)]
        && orders == old(orders) + DummyOrders(id, now)
        && nextId == id + 1
        && r.value == LoginResponse(generateToken(id, email), id, email, firstName, lastName, expirationTime)
    {
      if ExistsByEmail(customers, email) {
        return Failure(EmailAlreadyExists);
      }
      var customersBefore, ordersBefore := customers, orders;
      var customer := Customer(nextId, email, encode(password), firstName, lastName, None, None, true);
      AppendKeepsEmailsUnique(customers, customer);
      customers := customers + [customer];
      nextId := nextId + 1;
      var ok := CreateDummyOrders(customer.id, now);
      if !ok {
        customers, orders := customersBefore, ordersBefore;
        return Failure(OrderNumberTaken);
      }
      var token := generateToken(customer.id, customer.email);
      r := Success(LoginResponse(token, customer.id, customer.email, customer.firstName, customer.lastName, expirationTime));
    }

    /**
     * authenticateCustomer: the enabled account with that email, if the
     * password matches its hash; the same error when either is missing.
     */
    method AuthenticateCustomer(email: string, password: string) returns (r: Result<LoginResponse, AuthError>)
      requires Valid()
      ensures r.Failure? ==> r.error == InvalidCredentials
      ensures r.Failure? <==>
        forall i :: 0 <= i < |customers| && customers[i].email == email && customers[i].enabled ==>
          !matches(password, customers[i].password)
      ensures r.Success? ==>
        exists i :: 0 <= i < |customers| && customers[i].email == email && customers[i].enabled
          && matches(password, customers[i].password)
          && r.value == LoginResponse(generateToken(customers[i].id, email), customers[i].id, email,
                                      customers[i].firstName, customers[i].lastName, expirationTime)
    {
      var found := FindByEmailAndEnabled(customers, email, true);
      if found.None? {
        return Failure(InvalidCredentials);
      }
      var customer := found.value;
      if !matches(password, customer.password) {
        return Failure(InvalidCredentials);
      }
      var token := generateToken(customer.id, customer.email);
      r := Success(LoginResponse(token, customer.id, customer.email, customer.firstName, customer.lastName, expirationTime));
    }

    /** createCustomer: refuse a taken email, else save the customer enabled, with the encoded password. */
    method CreateCustomer(customer: Customer) returns (r: Result<Customer, AuthError>)
      requires Valid()
      modifies this
      ensures Valid()
      ensures old(ExistsByEmail(customers, customer.email)) <==> r == Failure(EmailAlreadyExists)
      ensures r.Failure? ==> customers == old(customers) && nextId == old(nextId)
      ensures r.Success? ==>
        && r.value == customer.(id := old(nextId), password := encode(customer.password), enabled := true)
        && customers == old(customers) + [r.value]
        && nextId == old(nextId) + 1
      ensures orders == old(orders)
    {
      if ExistsByEmail(customers, customer.email) {
        return Failure(EmailAlreadyExists);
      }
      var saved := customer.(id := nextId, password := encode(customer.password), enabled := true);
      AppendKeepsEmailsUnique(customers, saved);
      customers := customers + [saved];
      nextId := nextId + 1;
      r := Success(saved);
    }

    /** validateTokenAndGetCustomer: the enabled customer the token names; nothing when parsing throws. */
    function ValidateTokenAndGetCustomer(token: string): (r: Option<Customer>)
      reads this
      ensures extractEmail(token).None? ==> r.None?
      ensures r.Some? ==>
        r.value in customers && r.value.enabled && extractEmail(token) == Some(r.value.email)
      ensures extractEmail(token).Some? && r.None? ==>
        forall c :: c in customers && c.email == extractEmail(token).value ==> !c.enabled
    {
      match extractEmail(token)
      case None => None
      case Some(email) => FindByEmailAndEnabled(customers, email, true)
    }
  }
}
