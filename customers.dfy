/**
 * The customer entity and the queries of the customer repository, as
 * specification functions over the table's rows.
 */
module Customers {
  import opened Wrappers

  /** A row of the customers table; `password` holds the encoder's output. */
  datatype Customer = Customer(
    id: int,
    email: string,
    password: string,
    firstName: string,
    lastName: string,
    phone: Option<string>,
    address: Option<string>,
    enabled: bool)

  /** email is a unique column. */
  ghost predicate UniqueEmails(customers: seq<Customer>)
  {
    forall i, j :: 0 <= i < |customers| && 0 <= j < |customers| && customers[i].email == customers[j].email ==> i == j
  }

  /** Saving a customer whose email is not taken keeps the emails unique. */
  lemma AppendKeepsEmailsUnique(customers: seq<Customer>, c: Customer)
    requires UniqueEmails(customers)
    requires forall x :: x in customers ==> x.email != c.email
    ensures UniqueEmails(customers + [c])
  {
  }

  /** findByEmailAndEnabled. */
  function FindByEmailAndEnabled(customers: seq<Customer>, email: string, enabled: bool): (r: Option<Customer>)
    ensures r.Some? ==> r.value in customers && r.value.email == email && r.value.enabled == enabled
    ensures r.None? <==> forall c :: c in customers ==> !(c.email == email && c.enabled == enabled)
    ensures r.Some? && UniqueEmails(customers) ==>
      forall i :: 0 <= i < |customers| && customers[i].email == email ==> customers[i] == r.value
  {
    if customers == [] then None
    else if customers[0].email == email && customers[0].enabled == enabled then
      assert UniqueEmails(customers) ==> forall i :: 0 < i < |customers| ==> customers[i].email != email;
      Some(customers[0])
    else
      var r := FindByEmailAndEnabled(customers[1..], email, enabled);
      assert UniqueEmails(customers) ==> UniqueEmails(customers[1..]) by {
        if UniqueEmails(customers) {
          forall i, j | 0 <= i < |customers| - 1 && 0 <= j < |customers| - 1 && customers[1..][i].email == customers[1..][j].email
            ensures i == j
          {
            assert customers[i + 1].email == customers[j + 1].email;
          }
        }
      }
      assert r.Some? && UniqueEmails(customers) ==> customers[0].email != email;
      assert forall i :: 0 < i < |customers| ==> customers[i] == customers[1..][i - 1];
      r
  }

  /** existsByEmail: enabled or not. */
  function ExistsByEmail(customers: seq<Customer>, email: string): (r: bool)
    ensures r <==> exists c :: c in customers && c.email == email
  {
    if customers == [] then false
    else customers[0].email == email || ExistsByEmail(customers[1..], email)
  }
}
