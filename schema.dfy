/** The record shapes of the relational schema (users, factories, customers,
    invoices, invoice_items), the column defaults, and the integrity the schema
    declares: every primary key is unique and every foreign key names an
    existing row. */
module Schema {
  import opened Base

  /** Primary keys are random UUID strings. */
  type Id = string
  type UserId = Id
  /** A `timestamp`-mode integer column: seconds since the epoch. */
  type Timestamp = int

  type Month = m: int | 1 <= m <= 12 witness 1
  /** The calendar day an invoice is issued on. */
  datatype CalendarDate = CalendarDate(year: int, month: Month, day: int)

  /** Months counted from year 0, so that consecutive months differ by one. */
  function MonthKey(d: CalendarDate): int {
    d.year * 12 + (d.month - 1)
  }

  /** The three statuses the schema comments list; the column default is PAID. */
  datatype Status = Paid | Pending | Cancelled

  datatype User = User(id: UserId, email: string, name: Option<string>, mobile: Option<string>)

  datatype Factory = Factory(
    id: Id, name: string, address: string, gstin: Option<string>,
    userId: UserId, createdAt: Timestamp, updatedAt: Timestamp)

  datatype Customer = Customer(
    id: Id, name: string, address: Option<string>, gstin: Option<string>, mobile: Option<string>,
    userId: UserId, createdAt: Timestamp, updatedAt: Timestamp)

  datatype Invoice = Invoice(
    id: Id, invoiceNo: string, date: CalendarDate, factoryId: Id, userId: UserId,
    customerName: string, customerAddress: Option<string>,
    customerMobile: Option<string>, customerGstin: Option<string>,
    subTotal: real, gstRate: real, gstAmount: real, totalAmount: real,
    status: Status, createdAt: Timestamp, updatedAt: Timestamp)

  datatype InvoiceItem = InvoiceItem(
    id: Id, name: string, quantity: real, rate: real, amount: real, invoiceId: Id)

  /** The values of an `insert into invoices`: the NOT NULL columns without a
      default must be given, the defaulted ones may be omitted (None). */
  datatype InvoiceValues = InvoiceValues(
    id: Id, invoiceNo: string, date: CalendarDate, factoryId: Id, userId: UserId,
    customerName: string, customerAddress: Option<string>,
    customerMobile: Option<string>, customerGstin: Option<string>,
    subTotal: real, gstRate: Option<real>, gstAmount: Option<real>, totalAmount: real,
    status: Option<Status>)

  function OrDefault<T>(o: Option<T>, d: T): T {
    if o.Some? then o.value else d
  }

  /** The row the database stores for an insert at time `now`. */
  function InvoiceRow(v: InvoiceValues, now: Timestamp): (row: Invoice)
    ensures v.gstRate.None? ==> row.gstRate == 0.0
    ensures v.gstAmount.None? ==> row.gstAmount == 0.0
    ensures v.status.None? ==> row.status == Paid
    ensures row.createdAt == now && row.updatedAt == now
    ensures row.id == v.id && row.factoryId == v.factoryId && row.userId == v.userId
    ensures row.subTotal == v.subTotal && row.totalAmount == v.totalAmount
  {
    Invoice(v.id, v.invoiceNo, v.date, v.factoryId, v.userId,
            v.customerName, v.customerAddress, v.customerMobile, v.customerGstin,
            v.subTotal, OrDefault(v.gstRate, 0.0), OrDefault(v.gstAmount, 0.0), v.totalAmount,
            OrDefault(v.status, Paid), now, now)
  }

  /** The whole database. */
  datatype Tables = Tables(
    users: seq<User>, factories: seq<Factory>, customers: seq<Customer>,
    invoices: seq<Invoice>, items: seq<InvoiceItem>)

  /** The primary keys of a table's rows, in table order. */
  function Ids<T>(s: seq<T>, key: T -> Id): (ids: seq<Id>)
    ensures |ids| == |s| && forall i :: 0 <= i < |s| ==> ids[i] == key(s[i])
  {
    seq(|s|, i requires 0 <= i < |s| => key(s[i]))
  }

  function UserKey(u: User): Id { u.id }
  function FactoryKey(f: Factory): Id { f.id }
  function CustomerKey(c: Customer): Id { c.id }
  function InvoiceKey(inv: Invoice): Id { inv.id }
  function ItemKey(it: InvoiceItem): Id { it.id }

  /** Every table's primary key is unique. */
  ghost predicate KeysUnique(t: Tables) {
    && UniqueKeys(t.users, UserKey)
    && UniqueKeys(t.factories, FactoryKey)
    && UniqueKeys(t.customers, CustomerKey)
    && UniqueKeys(t.invoices, InvoiceKey)
    && UniqueKeys(t.items, ItemKey)
  }

  /** factories.user_id references users.id. */
  ghost predicate FactoryRefsOk(t: Tables) {
    forall i :: 0 <= i < |t.factories| ==> t.factories[i].userId in Ids(t.users, UserKey)
  }

  /** customers.user_id references users.id. */
  ghost predicate CustomerRefsOk(t: Tables) {
    forall i :: 0 <= i < |t.customers| ==> t.customers[i].userId in Ids(t.users, UserKey)
  }

  /** invoices.factory_id references factories.id and invoices.user_id references users.id. */
  ghost predicate InvoiceRefsOk(t: Tables) {
    forall i :: 0 <= i < |t.invoices| ==>
      t.invoices[i].factoryId in Ids(t.factories, FactoryKey) && t.invoices[i].userId in Ids(t.users, UserKey)
  }

  /** invoice_items.invoice_id references invoices.id. */
  ghost predicate ItemRefsOk(t: Tables) {
    forall i :: 0 <= i < |t.items| ==> t.items[i].invoiceId in Ids(t.invoices, InvoiceKey)
  }

  /** Every foreign key names an existing row. */
  ghost predicate RefsResolve(t: Tables) {
    FactoryRefsOk(t) && CustomerRefsOk(t) && InvoiceRefsOk(t) && ItemRefsOk(t)
  }

  ghost predicate Integrity(t: Tables) {
    KeysUnique(t) && RefsResolve(t)
  }

  /** The item rows of one invoice, in table order. */
  function ItemsOf(items: seq<InvoiceItem>, invoiceId: Id): (r: seq<InvoiceItem>)
    ensures forall i :: 0 <= i < |r| ==> r[i] in items && r[i].invoiceId == invoiceId
    ensures forall i :: 0 <= i < |items| && items[i].invoiceId == invoiceId ==> items[i] in r
  {
    Filter(items, (it: InvoiceItem) => it.invoiceId == invoiceId)
  }

  /** An invoice id that no item references has no items. */
  lemma ItemsOfUnreferenced(items: seq<InvoiceItem>, invoiceId: Id)
    requires forall i :: 0 <= i < |items| ==> items[i].invoiceId != invoiceId
    ensures ItemsOf(items, invoiceId) == []
  {
    FilterKeepsNone(items, (it: InvoiceItem) => it.invoiceId == invoiceId);
  }
}
