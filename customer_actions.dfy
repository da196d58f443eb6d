/** The customer server actions: a created customer is stamped with the
    caller's id, and the list read only returns the caller's customers. */
module CustomerActions {
  import opened Base
  import opened Schema
  import opened Store

  /** The form data `createCustomer` receives. */
  datatype CustomerInput = CustomerInput(
    name: string, address: Option<string>, gstin: Option<string>, mobile: Option<string>)

  const CreateError := "Failed to create customer"

  /** The row an insert at time `now` stores, `newId` being the drawn UUID. */
  function CustomerRow(input: CustomerInput, uid: UserId, newId: Id, now: Timestamp): Customer {
    Customer(newId, input.name, input.address, input.gstin, input.mobile, uid, now, now)
  }

  /** What `createCustomer(data)` does (lines 11-33); statement 0 is the insert. */
  function CreateCustomerSpec(t: Tables, session: Option<UserId>, input: CustomerInput,
                              newId: Id, now: Timestamp, fault: Fault): (o: Outcome)
    ensures o.tables.users == t.users && o.tables.factories == t.factories
    ensures o.tables.invoices == t.invoices && o.tables.items == t.items
    ensures o.result.Success? ==> session.Some? && |o.tables.customers| == |t.customers| + 1
  {
    if session.None? then Outcome(t, Failure("Unauthorized"))
    else
      var row := CustomerRow(input, session.value, newId, now);
      if Raises(fault, 0) || !CanInsertCustomer(t, row) then Outcome(t, Failure(CreateError))
      else Outcome(t.(customers := t.customers + [row]), Success(None))
  }

  method CreateCustomer(db: Database, session: Option<UserId>, input: CustomerInput,
                        newId: Id, now: Timestamp, fault: Fault) returns (r: ActionResult)
    requires db.Valid()
    modifies db
    ensures db.Valid()
    ensures Outcome(db.Snapshot(), r) == CreateCustomerSpec(old(db.Snapshot()), session, input, newId, now, fault)
  {
    if session.None? {
      return Failure("Unauthorized");
    }
    var ok := db.InsertCustomer(CustomerRow(input, session.value, newId, now), Raises(fault, 0));
    r := if ok then Success(None) else Failure(CreateError);
  }

  /** A create either fails and writes nothing, or appends exactly one
      customer with the submitted fields, owned by the caller. */
  lemma CreateCustomerEffect(t: Tables, session: Option<UserId>, input: CustomerInput,
                             newId: Id, now: Timestamp, fault: Fault)
    ensures var o := CreateCustomerSpec(t, session, input, newId, now, fault);
      && (session.None? ==> o.result == Failure("Unauthorized"))
      && (o.result.Failure? ==> o.tables == t && o.result.error in {"Unauthorized", CreateError})
      && (o.result.Success? ==>
            && session.Some? && o.result.invoiceId.None?
            && o.tables == t.(customers := o.tables.customers)
            && |o.tables.customers| == |t.customers| + 1
            && o.tables.customers[..|t.customers|] == t.customers
            && var c := o.tables.customers[|t.customers|];
            && c.name == input.name && c.address == input.address && c.gstin == input.gstin
            && c.mobile == input.mobile && c.userId == session.value && c.id !in Ids(t.customers, CustomerKey))
  {
    if CreateCustomerSpec(t, session, input, newId, now, fault).result.Success? {
      assert (t.customers + [CustomerRow(input, session.value, newId, now)])[..|t.customers|] == t.customers;
    }
  }

  /** With a healthy store, a signed-in user that exists and a fresh id, a
      create succeeds. */
  lemma CreateCustomerSucceeds(t: Tables, uid: UserId, input: CustomerInput, newId: Id, now: Timestamp)
    requires uid in Ids(t.users, UserKey) && newId !in Ids(t.customers, CustomerKey)
    ensures CreateCustomerSpec(t, Some(uid), input, newId, now, NoFault).result == Success(None)
  {
  }

  /** `getCustomers()` (lines 35-49): the caller's customers in table order;
      [] without a session or when the read fails. */
  function GetCustomers(db: Database, session: Option<UserId>, fails: bool): (r: seq<Customer>)
    reads db
    ensures session.None? || fails ==> r == []
    ensures session.Some? && !fails ==>
      && (forall i :: 0 <= i < |r| ==> r[i] in db.customers && r[i].userId == session.value)
      && (forall i :: 0 <= i < |db.customers| && db.customers[i].userId == session.value ==> db.customers[i] in r)
  {
    if session.None? || fails then []
    else Filter(db.customers, (c: Customer) => c.userId == session.value)
  }

  /** The list is taken from the table without reordering or altering rows. */
  lemma GetCustomersIsSublist(db: Database, session: Option<UserId>, fails: bool)
    ensures IsSubsequence(GetCustomers(db, session, fails), db.customers)
  {
    if session.Some? && !fails {
      FilterIsSubsequence(db.customers, (c: Customer) => c.userId == session.value);
    }
  }
}
