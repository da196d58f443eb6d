/** An in-memory stand-in for the SQLite database the actions talk to. Each
    method is one SQL statement: it either applies completely or fails and
    changes nothing. A statement fails when the storage layer raises (the
    `fails` argument, standing for any driver or I/O error) or when it would
    break a declared constraint (a duplicate primary key or a foreign key
    that names no row); foreign keys are enforced, as the declared cascades
    require. */
module Store {
  import opened Base
  import opened Schema
  import Cascade

  /** Which statement of an action, counted from 0, the storage layer fails on. */
  datatype Fault = NoFault | FailAt(step: nat)

  predicate Raises(fault: Fault, step: nat) {
    fault.FailAt? && fault.step == step
  }

  /** What a mutating server action returns: `{ success: true, invoiceId? }`
      or `{ error }`. */
  datatype ActionResult = Success(invoiceId: Option<Id>) | Failure(error: string)

  /** The database after an action, and the action's result. */
  datatype Outcome = Outcome(tables: Tables, result: ActionResult)

  predicate CanInsertFactory(t: Tables, row: Factory) {
    row.id !in Ids(t.factories, FactoryKey) && row.userId in Ids(t.users, UserKey)
  }

  predicate CanInsertCustomer(t: Tables, row: Customer) {
    row.id !in Ids(t.customers, CustomerKey) && row.userId in Ids(t.users, UserKey)
  }

  predicate CanInsertInvoice(t: Tables, row: Invoice) {
    && row.id !in Ids(t.invoices, InvoiceKey)
    && row.factoryId in Ids(t.factories, FactoryKey)
    && row.userId in Ids(t.users, UserKey)
  }

  /** A multi-row insert is one statement: every row must be acceptable. */
  predicate CanInsertItems(t: Tables, rows: seq<InvoiceItem>) {
    && Distinct(Ids(rows, ItemKey))
    && (forall i :: 0 <= i < |rows| ==> rows[i].id !in Ids(t.items, ItemKey))
    && (forall i :: 0 <= i < |rows| ==> rows[i].invoiceId in Ids(t.invoices, InvoiceKey))
  }

  /** The columns an `update invoices set ...` assigns. A customer field
      given as None is left out of the assignment (the query builder skips
      undefined values), so the stored value stays. */
  datatype InvoiceSet = InvoiceSet(
    invoiceNo: string, date: CalendarDate, customerName: string,
    customerAddress: Option<string>, customerMobile: Option<string>, customerGstin: Option<string>,
    subTotal: real, gstRate: real, gstAmount: real, totalAmount: real,
    status: Status, updatedAt: Timestamp)

  function Assign(old_: Option<string>, new_: Option<string>): Option<string> {
    if new_.Some? then new_ else old_
  }

  function ApplySet(inv: Invoice, s: InvoiceSet): (r: Invoice)
    ensures r.id == inv.id && r.factoryId == inv.factoryId && r.userId == inv.userId
    ensures r.createdAt == inv.createdAt
  {
    inv.(invoiceNo := s.invoiceNo, date := s.date, customerName := s.customerName,
         customerAddress := Assign(inv.customerAddress, s.customerAddress),
         customerMobile := Assign(inv.customerMobile, s.customerMobile),
         customerGstin := Assign(inv.customerGstin, s.customerGstin),
         subTotal := s.subTotal, gstRate := s.gstRate, gstAmount := s.gstAmount,
         totalAmount := s.totalAmount, status := s.status, updatedAt := s.updatedAt)
  }

  /** `update invoices set s where id = id`: every row with that id is
      rewritten, every other row is left as it was, and the table keeps its
      length, order and keys. */
  function UpdateWhereId(invs: seq<Invoice>, id: Id, s: InvoiceSet): (r: seq<Invoice>)
    ensures |r| == |invs|
    ensures forall i :: 0 <= i < |invs| ==> r[i] == if invs[i].id == id then ApplySet(invs[i], s) else invs[i]
    ensures Ids(r, InvoiceKey) == Ids(invs, InvoiceKey)
  {
    var r := seq(|invs|, i requires 0 <= i < |invs| => if invs[i].id == id then ApplySet(invs[i], s) else invs[i]);
    assert Ids(r, InvoiceKey) == Ids(invs, InvoiceKey);
    r
  }

  lemma AppendKeepsFactoryIds(fs: seq<Factory>, row: Factory)
    ensures forall x :: x in Ids(fs, FactoryKey) ==> x in Ids(fs + [row], FactoryKey)
    ensures row.id in Ids(fs + [row], FactoryKey)
  {
    forall x | x in Ids(fs, FactoryKey) ensures x in Ids(fs + [row], FactoryKey) {
      var k :| 0 <= k < |fs| && Ids(fs, FactoryKey)[k] == x;
      assert Ids(fs + [row], FactoryKey)[k] == x;
    }
    assert Ids(fs + [row], FactoryKey)[|fs|] == row.id;
  }

  lemma AppendKeepsInvoiceIds(invs: seq<Invoice>, row: Invoice)
    ensures forall x :: x in Ids(invs, InvoiceKey) ==> x in Ids(invs + [row], InvoiceKey)
    ensures row.id in Ids(invs + [row], InvoiceKey)
  {
    forall x | x in Ids(invs, InvoiceKey) ensures x in Ids(invs + [row], InvoiceKey) {
      var k :| 0 <= k < |invs| && Ids(invs, InvoiceKey)[k] == x;
      assert Ids(invs + [row], InvoiceKey)[k] == x;
    }
    assert Ids(invs + [row], InvoiceKey)[|invs|] == row.id;
  }

  lemma InsertFactoryKeepsIntegrity(t: Tables, row: Factory)
    requires Integrity(t) && CanInsertFactory(t, row)
    ensures Integrity(t.(factories := t.factories + [row]))
  {
    AppendKeepsFactoryIds(t.factories, row);
  }

  lemma InsertCustomerKeepsIntegrity(t: Tables, row: Customer)
    requires Integrity(t) && CanInsertCustomer(t, row)
    ensures Integrity(t.(customers := t.customers + [row]))
  {
  }

  lemma InsertInvoiceKeepsIntegrity(t: Tables, row: Invoice)
    requires Integrity(t) && CanInsertInvoice(t, row)
    ensures Integrity(t.(invoices := t.invoices + [row]))
  {
    AppendKeepsInvoiceIds(t.invoices, row);
  }

  lemma InsertItemsKeepsIntegrity(t: Tables, rows: seq<InvoiceItem>)
    requires Integrity(t) && CanInsertItems(t, rows)
    ensures Integrity(t.(items := t.items + rows))
  {
    var r := t.(items := t.items + rows);
    assert UniqueKeys(rows, ItemKey) by {
      forall i, j | 0 <= i < j < |rows| ensures ItemKey(rows[i]) != ItemKey(rows[j]) {
        assert Ids(rows, ItemKey)[i] != Ids(rows, ItemKey)[j];
      }
    }
    forall i, j | 0 <= i < |t.items| && 0 <= j < |rows| ensures ItemKey(t.items[i]) != ItemKey(rows[j]) {
      assert Ids(t.items, ItemKey)[i] == t.items[i].id;
    }
    ConcatUniqueKeys(t.items, rows, ItemKey);
    forall i | 0 <= i < |r.items| ensures r.items[i].invoiceId in Ids(r.invoices, InvoiceKey) {
      if i >= |t.items| {
        assert r.items[i] == rows[i - |t.items|];
      }
    }
  }

  lemma UpdateKeepsIntegrity(t: Tables, id: Id, s: InvoiceSet)
    requires Integrity(t)
    ensures Integrity(t.(invoices := UpdateWhereId(t.invoices, id, s)))
  {
    var r := t.(invoices := UpdateWhereId(t.invoices, id, s));
    forall i, j | 0 <= i < j < |r.invoices| ensures InvoiceKey(r.invoices[i]) != InvoiceKey(r.invoices[j]) {
      assert InvoiceKey(t.invoices[i]) != InvoiceKey(t.invoices[j]);
    }
  }

  lemma DeleteItemsKeepsIntegrity(t: Tables, id: Id)
    requires Integrity(t)
    ensures Integrity(t.(items := Filter(t.items, (it: InvoiceItem) => it.invoiceId != id)))
  {
    var p := (it: InvoiceItem) => it.invoiceId != id;
    var r := t.(items := Filter(t.items, p));
    FilterUniqueKeys(t.items, p, ItemKey);
    forall i | 0 <= i < |r.items| ensures r.items[i].invoiceId in Ids(r.invoices, InvoiceKey) {
      FromFilter(t.items, p, r.items[i]);
      var k :| 0 <= k < |t.items| && t.items[k] == r.items[i];
    }
  }

  class Database {
    var users: seq<User>
    var factories: seq<Factory>
    var customers: seq<Customer>
    var invoices: seq<Invoice>
    var items: seq<InvoiceItem>

    function Snapshot(): Tables
      reads this
    {
      Tables(users, factories, customers, invoices, items)
    }

    ghost predicate Valid()
      reads this
    {
      Integrity(Snapshot())
    }

    /** A database holding the given users and nothing else. */
    constructor (accounts: seq<User>)
      requires UniqueKeys(accounts, UserKey)
      ensures Valid() && Snapshot() == Tables(accounts, [], [], [], [])
    {
      users, factories, customers, invoices, items := accounts, [], [], [], [];
    }

    /** `insert into factories values (row)`. */
    method InsertFactory(row: Factory, fails: bool) returns (ok: bool)
      requires Valid()
      modifies this
      ensures Valid()
      ensures ok == (!fails && CanInsertFactory(old(Snapshot()), row))
      ensures Snapshot() == if ok then old(Snapshot()).(factories := old(factories) + [row]) else old(Snapshot())
    {
      ok := !fails && CanInsertFactory(Snapshot(), row);
      if ok {
        InsertFactoryKeepsIntegrity(Snapshot(), row);
        factories := factories + [row];
      }
    }

    /** `insert into customers values (row)`. */
    method InsertCustomer(row: Customer, fails: bool) returns (ok: bool)
      requires Valid()
      modifies this
      ensures Valid()
      ensures ok == (!fails && CanInsertCustomer(old(Snapshot()), row))
      ensures Snapshot() == if ok then old(Snapshot()).(customers := old(customers) + [row]) else old(Snapshot())
    {
      ok := !fails && CanInsertCustomer(Snapshot(), row);
      if ok {
        InsertCustomerKeepsIntegrity(Snapshot(), row);
        customers := customers + [row];
      }
    }

    /** `insert into invoices values (row)`. */
    method InsertInvoice(row: Invoice, fails: bool) returns (ok: bool)
      requires Valid()
      modifies this
      ensures Valid()
      ensures ok == (!fails && CanInsertInvoice(old(Snapshot()), row))
      ensures Snapshot() == if ok then old(Snapshot()).(invoices := old(invoices) + [row]) else old(Snapshot())
    {
      ok := !fails && CanInsertInvoice(Snapshot(), row);
      if ok {
        InsertInvoiceKeepsIntegrity(Snapshot(), row);
        invoices := invoices + [row];
      }
    }

    /** `insert into invoice_items values (rows...)`, all rows or none. */
    method InsertItems(rows: seq<InvoiceItem>, fails: bool) returns (ok: bool)
      requires Valid()
      modifies this
      ensures Valid()
      ensures ok == (!fails && CanInsertItems(old(Snapshot()), rows))
      ensures Snapshot() == if ok then old(Snapshot()).(items := old(items) + rows) else old(Snapshot())
    {
      ok := !fails && CanInsertItems(Snapshot(), rows);
      if ok {
        InsertItemsKeepsIntegrity(Snapshot(), rows);
        items := items + rows;
      }
    }

    /** `update invoices set s where id = id`. */
    method UpdateInvoice(id: Id, s: InvoiceSet, fails: bool) returns (ok: bool)
      requires Valid()
      modifies this
      ensures Valid()
      ensures ok == !fails
      ensures Snapshot() == if ok then old(Snapshot()).(invoices := UpdateWhereId(old(invoices), id, s)) else old(Snapshot())
    {
      ok := !fails;
      if ok {
        UpdateKeepsIntegrity(Snapshot(), id, s);
        invoices := UpdateWhereId(invoices, id, s);
      }
    }

    /** `delete from invoice_items where invoice_id = id`. */
    method DeleteItemsOf(id: Id, fails: bool) returns (ok: bool)
      requires Valid()
      modifies this
      ensures Valid()
      ensures ok == !fails
      ensures Snapshot() == if ok then old(Snapshot()).(items := Filter(old(items), (it: InvoiceItem) => it.invoiceId != id)) else old(Snapshot())
    {
      ok := !fails;
      if ok {
        DeleteItemsKeepsIntegrity(Snapshot(), id);
        items := Filter(items, (it: InvoiceItem) => it.invoiceId != id);
      }
    }

    /** `delete from factories where id = id and user_id = uid`, with the
        cascades to invoices and items. */
    method DeleteOwnedFactory(id: Id, uid: UserId, fails: bool) returns (ok: bool)
      requires Valid()
      modifies this
      ensures Valid()
      ensures ok == !fails
      ensures Snapshot() == if ok then Cascade.DeleteOwnedFactory(old(Snapshot()), id, uid) else old(Snapshot())
    {
      ok := !fails;
      if ok {
        var t := Cascade.DeleteOwnedFactory(Snapshot(), id, uid);
        Cascade.DeleteFactoriesKeepsIntegrity(Snapshot(), (f: Factory) => Cascade.OwnedMatch(f, id, uid));
        factories, invoices, items := t.factories, t.invoices, t.items;
      }
    }
  }
}
