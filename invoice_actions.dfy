/** `createInvoice` and `updateInvoice`: an invoice header and its item rows
    written as a sequence of separate statements, with no transaction. A
    storage failure part-way through leaves the statements already run in
    place. The random UUIDs the code and the column defaults draw are given
    as parameters (`invoiceId`, `itemIds`), the clock as `now`. */
module InvoiceActions {
  import opened Base
  import opened Schema
  import opened Store

  /** One submitted line item. */
  datatype LineData = LineData(name: string, quantity: real, rate: real, amount: real)

  /** The `InvoiceData` a form submits. Totals are taken as given: neither
      action recomputes them from the items. */
  datatype InvoiceData = InvoiceData(
    factoryId: Id, invoiceNo: string, date: CalendarDate, customerName: string,
    customerAddress: Option<string>, customerMobile: Option<string>, customerGstin: Option<string>,
    items: seq<LineData>, subTotal: real, gstRate: real, gstAmount: real, totalAmount: real)

  const CreateError := "Failed to create invoice"
  const UpdateError := "Failed to update invoice"

  /** The values the header insert gives (lines 44-59). */
  function HeaderValues(data: InvoiceData, invoiceId: Id, uid: UserId): InvoiceValues {
    InvoiceValues(invoiceId, data.invoiceNo, data.date, data.factoryId, uid,
                  data.customerName, data.customerAddress, data.customerMobile, data.customerGstin,
                  data.subTotal, Some(data.gstRate), Some(data.gstAmount), data.totalAmount, Some(Paid))
  }

  /** The item rows inserted for an invoice, one per submitted line, in order
      (lines 62-70 and 110-118). */
  function ItemRows(invoiceId: Id, lines: seq<LineData>, itemIds: seq<Id>): (rows: seq<InvoiceItem>)
    requires |itemIds| == |lines|
    ensures |rows| == |lines|
    ensures forall i :: 0 <= i < |rows| ==> rows[i].invoiceId == invoiceId && rows[i].id == itemIds[i]
  {
    seq(|lines|, i requires 0 <= i < |lines| =>
      InvoiceItem(itemIds[i], lines[i].name, lines[i].quantity, lines[i].rate, lines[i].amount, invoiceId))
  }

  /** The line items stored rows describe. */
  function LinesOf(rows: seq<InvoiceItem>): seq<LineData> {
    seq(|rows|, i requires 0 <= i < |rows| =>
      LineData(rows[i].name, rows[i].quantity, rows[i].rate, rows[i].amount))
  }

  /** The stored rows give back exactly the submitted lines, carry the drawn
      ids and all reference the invoice. */
  lemma ItemRowsRoundTrip(invoiceId: Id, lines: seq<LineData>, itemIds: seq<Id>)
    requires |itemIds| == |lines|
    ensures LinesOf(ItemRows(invoiceId, lines, itemIds)) == lines
    ensures Ids(ItemRows(invoiceId, lines, itemIds), ItemKey) == itemIds
    ensures ItemsOf(ItemRows(invoiceId, lines, itemIds), invoiceId) == ItemRows(invoiceId, lines, itemIds)
  {
    var rows := ItemRows(invoiceId, lines, itemIds);
    FilterKeepsAll(rows, (it: InvoiceItem) => it.invoiceId == invoiceId);
  }

  /** What `createInvoice(data)` does to the tables and returns. Statement 0
      is the header insert, statement 1 the items insert. */
  function CreateInvoiceSpec(t: Tables, session: Option<UserId>, data: InvoiceData,
                             invoiceId: Id, itemIds: seq<Id>, now: Timestamp, fault: Fault): (o: Outcome)
    requires |itemIds| == |data.items|
    ensures o.tables.users == t.users && o.tables.factories == t.factories && o.tables.customers == t.customers
    ensures o.result.Success? ==> session.Some? && o.result.invoiceId == Some(invoiceId)
  {
    if session.None? then Outcome(t, Failure("Unauthorized"))
    else
      var header := InvoiceRow(HeaderValues(data, invoiceId, session.value), now);
      if Raises(fault, 0) || !CanInsertInvoice(t, header) then Outcome(t, Failure(CreateError))
      else
        var t1 := t.(invoices := t.invoices + [header]);
        if data.items == [] then Outcome(t1, Success(Some(invoiceId)))
        else
          var rows := ItemRows(invoiceId, data.items, itemIds);
          if Raises(fault, 1) || !CanInsertItems(t1, rows) then Outcome(t1, Failure(CreateError))
          else Outcome(t1.(items := t1.items + rows), Success(Some(invoiceId)))
  }

  /** The columns the update assigns (lines 91-103). */
  function UpdateSet(data: InvoiceData, now: Timestamp): InvoiceSet {
    InvoiceSet(data.invoiceNo, data.date, data.customerName,
               data.customerAddress, data.customerMobile, data.customerGstin,
               data.subTotal, data.gstRate, data.gstAmount, data.totalAmount, Paid, now)
  }

  function OtherInvoicesItems(items: seq<InvoiceItem>, id: Id): seq<InvoiceItem> {
    Filter(items, (it: InvoiceItem) => it.invoiceId != id)
  }

  /** What `updateInvoice({...data, id})` does to the tables and returns.
      Statement 0 is the header update, 1 the items delete, 2 the items
      insert. */
  function UpdateInvoiceSpec(t: Tables, session: Option<UserId>, id: Id, data: InvoiceData,
                             itemIds: seq<Id>, now: Timestamp, fault: Fault): (o: Outcome)
    requires |itemIds| == |data.items|
    ensures o.tables.users == t.users && o.tables.factories == t.factories && o.tables.customers == t.customers
    ensures |o.tables.invoices| == |t.invoices|
    ensures o.result.Success? ==> session.Some? && o.result.invoiceId == Some(id)
  {
    if session.None? then Outcome(t, Failure("Unauthorized"))
    else if Raises(fault, 0) then Outcome(t, Failure(UpdateError))
    else
      var t1 := t.(invoices := UpdateWhereId(t.invoices, id, UpdateSet(data, now)));
      if Raises(fault, 1) then Outcome(t1, Failure(UpdateError))
      else
        var t2 := t1.(items := OtherInvoicesItems(t1.items, id));
        if data.items == [] then Outcome(t2, Success(Some(id)))
        else
          var rows := ItemRows(id, data.items, itemIds);
          if Raises(fault, 2) || !CanInsertItems(t2, rows) then Outcome(t2, Failure(UpdateError))
          else Outcome(t2.(items := t2.items + rows), Success(Some(id)))
  }

  /** `createInvoice(data)`. */
  method CreateInvoice(db: Database, session: Option<UserId>, data: InvoiceData,
                       invoiceId: Id, itemIds: seq<Id>, now: Timestamp, fault: Fault)
    returns (r: ActionResult)
    requires db.Valid() && |itemIds| == |data.items|
    modifies db
    ensures db.Valid()
    ensures Outcome(db.Snapshot(), r) == CreateInvoiceSpec(old(db.Snapshot()), session, data, invoiceId, itemIds, now, fault)
  {
    if session.None? {
      return Failure("Unauthorized");
    }
    var header := InvoiceRow(HeaderValues(data, invoiceId, session.value), now);
    var ok := db.InsertInvoice(header, Raises(fault, 0));
    if !ok {
      return Failure(CreateError);
    }
    if |data.items| > 0 {
      ok := db.InsertItems(ItemRows(invoiceId, data.items, itemIds), Raises(fault, 1));
      if !ok {
        return Failure(CreateError);
      }
    }
    r := Success(Some(invoiceId));
  }

  /** `updateInvoice({...data, id})`. */
  method UpdateInvoice(db: Database, session: Option<UserId>, id: Id, data: InvoiceData,
                       itemIds: seq<Id>, now: Timestamp, fault: Fault)
    returns (r: ActionResult)
    requires db.Valid() && |itemIds| == |data.items|
    modifies db
    ensures db.Valid()
    ensures Outcome(db.Snapshot(), r) == UpdateInvoiceSpec(old(db.Snapshot()), session, id, data, itemIds, now, fault)
  {
    if session.None? {
      return Failure("Unauthorized");
    }
    var ok := db.UpdateInvoice(id, UpdateSet(data, now), Raises(fault, 0));
    if !ok {
      return Failure(UpdateError);
    }
    ok := db.DeleteItemsOf(id, Raises(fault, 1));
    if !ok {
      return Failure(UpdateError);
    }
    if |data.items| > 0 {
      ok := db.InsertItems(ItemRows(id, data.items, itemIds), Raises(fault, 2));
      if !ok {
        return Failure(UpdateError);
      }
    }
    r := Success(Some(id));
  }

  // ---------------------------------------------------------------------
  // Properties of createInvoice

  /** Without a session nothing is written and the result is "Unauthorized";
      a failure never carries an invoice id, and success names the new id. */
  lemma CreateResults(t: Tables, session: Option<UserId>, data: InvoiceData,
                      invoiceId: Id, itemIds: seq<Id>, now: Timestamp, fault: Fault)
    requires |itemIds| == |data.items|
    ensures var o := CreateInvoiceSpec(t, session, data, invoiceId, itemIds, now, fault);
      && (session.None? ==> o == Outcome(t, Failure("Unauthorized")))
      && (o.result.Failure? ==> o.result.error in {"Unauthorized", CreateError})
      && (o.result.Success? ==> session.Some? && o.result.invoiceId == Some(invoiceId))
      && (o.result.Failure? && o.result.error == "Unauthorized" ==> session.None?)
  {
  }

  /** A successful create appends exactly one header: the drawn id (which no
      invoice had before), the caller as owner, status PAID, creation and
      update time `now`, and every submitted field, the four totals
      included, copied as given. No other table but invoice_items changes. */
  lemma CreateInsertsHeader(t: Tables, session: Option<UserId>, data: InvoiceData,
                            invoiceId: Id, itemIds: seq<Id>, now: Timestamp, fault: Fault)
    requires |itemIds| == |data.items|
    requires CreateInvoiceSpec(t, session, data, invoiceId, itemIds, now, fault).result.Success?
    ensures var o := CreateInvoiceSpec(t, session, data, invoiceId, itemIds, now, fault);
      && invoiceId !in Ids(t.invoices, InvoiceKey)
      && |o.tables.invoices| == |t.invoices| + 1
      && o.tables.invoices[..|t.invoices|] == t.invoices
      && var h := o.tables.invoices[|t.invoices|];
      && h.id == invoiceId && h.userId == session.value && h.status == Paid
      && h.factoryId == data.factoryId && h.invoiceNo == data.invoiceNo && h.date == data.date
      && h.customerName == data.customerName && h.customerAddress == data.customerAddress
      && h.customerMobile == data.customerMobile && h.customerGstin == data.customerGstin
      && h.subTotal == data.subTotal && h.gstRate == data.gstRate
      && h.gstAmount == data.gstAmount && h.totalAmount == data.totalAmount
      && h.createdAt == now && h.updatedAt == now
      && o.tables.users == t.users && o.tables.factories == t.factories && o.tables.customers == t.customers
  {
  }

  /** The new invoice has no items before the create: its id is fresh and
      every item references an existing invoice. */
  lemma FreshInvoiceHasNoItems(t: Tables, invoiceId: Id)
    requires ItemRefsOk(t) && invoiceId !in Ids(t.invoices, InvoiceKey)
    ensures ItemsOf(t.items, invoiceId) == []
  {
    forall i | 0 <= i < |t.items| ensures t.items[i].invoiceId != invoiceId {
      assert t.items[i].invoiceId in Ids(t.invoices, InvoiceKey);
    }
    ItemsOfUnreferenced(t.items, invoiceId);
  }

  /** A successful create appends exactly the item rows to invoice_items. */
  lemma CreateAppendsItemRows(t: Tables, session: Option<UserId>, data: InvoiceData,
                              invoiceId: Id, itemIds: seq<Id>, now: Timestamp, fault: Fault)
    requires |itemIds| == |data.items|
    requires CreateInvoiceSpec(t, session, data, invoiceId, itemIds, now, fault).result.Success?
    ensures invoiceId !in Ids(t.invoices, InvoiceKey)
    ensures CreateInvoiceSpec(t, session, data, invoiceId, itemIds, now, fault).tables.items
      == t.items + ItemRows(invoiceId, data.items, itemIds)
  {
    assert CanInsertInvoice(t, InvoiceRow(HeaderValues(data, invoiceId, session.value), now));
    if data.items == [] {
      assert ItemRows(invoiceId, data.items, itemIds) == [];
      assert t.items + [] == t.items;
    }
  }

  /** After a successful create the new invoice's items are exactly the
      submitted lines, in order (none for an empty list). */
  lemma CreateInsertsItems(t: Tables, session: Option<UserId>, data: InvoiceData,
                           invoiceId: Id, itemIds: seq<Id>, now: Timestamp, fault: Fault)
    requires ItemRefsOk(t) && |itemIds| == |data.items|
    requires CreateInvoiceSpec(t, session, data, invoiceId, itemIds, now, fault).result.Success?
    ensures var o := CreateInvoiceSpec(t, session, data, invoiceId, itemIds, now, fault);
      && LinesOf(ItemsOf(o.tables.items, invoiceId)) == data.items
      && ItemsOf(o.tables.items, invoiceId) == ItemRows(invoiceId, data.items, itemIds)
  {
    CreateAppendsItemRows(t, session, data, invoiceId, itemIds, now, fault);
    FreshInvoiceHasNoItems(t, invoiceId);
    RowsAfterNoItems(t.items, invoiceId, data.items, itemIds);
  }

  /** Rows appended after no items of the invoice are all of its items. */
  lemma RowsAfterNoItems(before: seq<InvoiceItem>, invoiceId: Id, lines: seq<LineData>, itemIds: seq<Id>)
    requires |itemIds| == |lines| && ItemsOf(before, invoiceId) == []
    ensures ItemsOf(before + ItemRows(invoiceId, lines, itemIds), invoiceId) == ItemRows(invoiceId, lines, itemIds)
    ensures LinesOf(ItemsOf(before + ItemRows(invoiceId, lines, itemIds), invoiceId)) == lines
  {
    var rows := ItemRows(invoiceId, lines, itemIds);
    ItemRowsRoundTrip(invoiceId, lines, itemIds);
    FilterConcat(before, rows, (it: InvoiceItem) => it.invoiceId == invoiceId);
    assert ItemsOf(before + rows, invoiceId) == ItemsOf(before, invoiceId) + ItemsOf(rows, invoiceId);
    assert [] + rows == rows;
  }

  /** A create leaves the items of every other invoice as they were. */
  lemma CreateKeepsOtherItems(t: Tables, session: Option<UserId>, data: InvoiceData,
                              invoiceId: Id, itemIds: seq<Id>, now: Timestamp, fault: Fault, other: Id)
    requires |itemIds| == |data.items| && other != invoiceId
    ensures var o := CreateInvoiceSpec(t, session, data, invoiceId, itemIds, now, fault);
      ItemsOf(o.tables.items, other) == ItemsOf(t.items, other)
  {
    var rows := ItemRows(invoiceId, data.items, itemIds);
    ItemRowsRoundTrip(invoiceId, data.items, itemIds);
    ItemsOfUnreferenced(rows, other);
    FilterConcat(t.items, rows, (it: InvoiceItem) => it.invoiceId == other);
  }

  /** With the storage layer healthy, an existing owner and factory, and
      fresh distinct ids, a signed-in create always succeeds. */
  lemma CreateSucceeds(t: Tables, uid: UserId, data: InvoiceData,
                       invoiceId: Id, itemIds: seq<Id>, now: Timestamp)
    requires |itemIds| == |data.items|
    requires uid in Ids(t.users, UserKey) && data.factoryId in Ids(t.factories, FactoryKey)
    requires invoiceId !in Ids(t.invoices, InvoiceKey)
    requires Distinct(itemIds) && forall i :: 0 <= i < |itemIds| ==> itemIds[i] !in Ids(t.items, ItemKey)
    ensures CreateInvoiceSpec(t, Some(uid), data, invoiceId, itemIds, now, NoFault).result == Success(Some(invoiceId))
  {
    var rows := ItemRows(invoiceId, data.items, itemIds);
    var t1 := t.(invoices := t.invoices + [InvoiceRow(HeaderValues(data, invoiceId, uid), now)]);
    ItemRowsRoundTrip(invoiceId, data.items, itemIds);
    assert invoiceId in Ids(t1.invoices, InvoiceKey) by {
      assert Ids(t1.invoices, InvoiceKey)[|t.invoices|] == invoiceId;
    }
    assert CanInsertItems(t1, rows);
  }

  /** Header and items are not written atomically: when the items insert
      fails, the header stays behind without items. */
  lemma CreateLeavesHeaderOnItemFailure(t: Tables, uid: UserId, data: InvoiceData,
                                        invoiceId: Id, itemIds: seq<Id>, now: Timestamp)
    requires Integrity(t) && |itemIds| == |data.items| && data.items != []
    requires CanInsertInvoice(t, InvoiceRow(HeaderValues(data, invoiceId, uid), now))
    ensures var o := CreateInvoiceSpec(t, Some(uid), data, invoiceId, itemIds, now, FailAt(1));
      && o.result == Failure(CreateError)
      && invoiceId in Ids(o.tables.invoices, InvoiceKey)
      && ItemsOf(o.tables.items, invoiceId) == []
  {
    var header := InvoiceRow(HeaderValues(data, invoiceId, uid), now);
    assert Ids(t.invoices + [header], InvoiceKey)[|t.invoices|] == invoiceId;
    FreshInvoiceHasNoItems(t, invoiceId);
  }

  // ---------------------------------------------------------------------
  // Properties of updateInvoice

  /** With no transaction, an items insert that fails after the delete has
      run leaves the rewritten header behind with no items at all. */
  lemma UpdateLeavesNoItemsOnInsertFailure(t: Tables, uid: UserId, id: Id, data: InvoiceData,
                                           itemIds: seq<Id>, now: Timestamp)
    requires |itemIds| == |data.items| && data.items != []
    ensures var o := UpdateInvoiceSpec(t, Some(uid), id, data, itemIds, now, FailAt(2));
      && o.result == Failure(UpdateError)
      && o.tables.invoices == UpdateWhereId(t.invoices, id, UpdateSet(data, now))
      && ItemsOf(o.tables.items, id) == []
  {
    var rest := OtherInvoicesItems(t.items, id);
    ItemsOfUnreferenced(rest, id);
  }

  /** Without a session nothing is written; a failure carries no invoice id;
      success names the updated id. */
  lemma UpdateResults(t: Tables, session: Option<UserId>, id: Id, data: InvoiceData,
                      itemIds: seq<Id>, now: Timestamp, fault: Fault)
    requires |itemIds| == |data.items|
    ensures var o := UpdateInvoiceSpec(t, session, id, data, itemIds, now, fault);
      && (session.None? ==> o == Outcome(t, Failure("Unauthorized")))
      && (o.result.Failure? ==> o.result.error in {"Unauthorized", UpdateError})
      && (o.result.Success? ==> session.Some? && o.result.invoiceId == Some(id))
      && (Raises(fault, 0) && session.Some? ==> o == Outcome(t, Failure(UpdateError)))
  {
  }

  /** A successful update rewrites the invoice with that id, whoever owns it:
      number, date, customer snapshot (an absent optional field keeps its
      stored value), the four totals, status PAID and `updatedAt`; its id,
      factory, owner and creation time stay, and every other invoice is
      left as it was. */
  lemma UpdateRewritesHeader(t: Tables, session: Option<UserId>, id: Id, data: InvoiceData,
                             itemIds: seq<Id>, now: Timestamp, fault: Fault, i: nat)
    requires |itemIds| == |data.items|
    requires UpdateInvoiceSpec(t, session, id, data, itemIds, now, fault).result.Success?
    requires i < |t.invoices|
    ensures var o := UpdateInvoiceSpec(t, session, id, data, itemIds, now, fault);
      && |o.tables.invoices| == |t.invoices|
      && var old_ := t.invoices[i];
      && var new_ := o.tables.invoices[i];
      && (old_.id != id ==> new_ == old_)
      && (old_.id == id ==>
            && new_.id == id && new_.factoryId == old_.factoryId && new_.userId == old_.userId
            && new_.createdAt == old_.createdAt && new_.updatedAt == now && new_.status == Paid
            && new_.invoiceNo == data.invoiceNo && new_.date == data.date
            && new_.customerName == data.customerName
            && new_.customerAddress == (if data.customerAddress.Some? then data.customerAddress else old_.customerAddress)
            && new_.customerMobile == (if data.customerMobile.Some? then data.customerMobile else old_.customerMobile)
            && new_.customerGstin == (if data.customerGstin.Some? then data.customerGstin else old_.customerGstin)
            && new_.subTotal == data.subTotal && new_.gstRate == data.gstRate
            && new_.gstAmount == data.gstAmount && new_.totalAmount == data.totalAmount)
      && o.tables.users == t.users && o.tables.factories == t.factories && o.tables.customers == t.customers
  {
  }

  /** A successful update leaves invoice_items as the other invoices' rows
      followed by the new item rows. */
  lemma UpdateWritesItemRows(t: Tables, session: Option<UserId>, id: Id, data: InvoiceData,
                             itemIds: seq<Id>, now: Timestamp, fault: Fault)
    requires |itemIds| == |data.items|
    requires UpdateInvoiceSpec(t, session, id, data, itemIds, now, fault).result.Success?
    ensures UpdateInvoiceSpec(t, session, id, data, itemIds, now, fault).tables.items
      == OtherInvoicesItems(t.items, id) + ItemRows(id, data.items, itemIds)
  {
    if data.items == [] {
      assert ItemRows(id, data.items, itemIds) == [];
      assert OtherInvoicesItems(t.items, id) + [] == OtherInvoicesItems(t.items, id);
    }
  }

  /** After a successful update the invoice's items are exactly the
      submitted lines, in order. */
  lemma UpdateReplacesItems(t: Tables, session: Option<UserId>, id: Id, data: InvoiceData,
                            itemIds: seq<Id>, now: Timestamp, fault: Fault)
    requires |itemIds| == |data.items|
    requires UpdateInvoiceSpec(t, session, id, data, itemIds, now, fault).result.Success?
    ensures var o := UpdateInvoiceSpec(t, session, id, data, itemIds, now, fault);
      && LinesOf(ItemsOf(o.tables.items, id)) == data.items
      && ItemsOf(o.tables.items, id) == ItemRows(id, data.items, itemIds)
  {
    var kept := OtherInvoicesItems(t.items, id);
    var rows := ItemRows(id, data.items, itemIds);
    UpdateWritesItemRows(t, session, id, data, itemIds, now, fault);
    ItemsOfUnreferenced(kept, id);
    ItemRowsRoundTrip(id, data.items, itemIds);
    FilterConcat(kept, rows, (it: InvoiceItem) => it.invoiceId == id);
  }

  /** An update, whatever its outcome, leaves the items of every other
      invoice as they were. */
  lemma UpdateKeepsOtherItems(t: Tables, session: Option<UserId>, id: Id, data: InvoiceData,
                              itemIds: seq<Id>, now: Timestamp, fault: Fault, other: Id)
    requires |itemIds| == |data.items| && other != id
    ensures var o := UpdateInvoiceSpec(t, session, id, data, itemIds, now, fault);
      ItemsOf(o.tables.items, other) == ItemsOf(t.items, other)
  {
    var o := UpdateInvoiceSpec(t, session, id, data, itemIds, now, fault);
    var kept := OtherInvoicesItems(t.items, id);
    if session.Some? && !Raises(fault, 0) && !Raises(fault, 1) {
      assert ItemsOf(kept, other) == ItemsOf(t.items, other) by {
        FilterAbsorbs(t.items, (it: InvoiceItem) => it.invoiceId != id, (it: InvoiceItem) => it.invoiceId == other);
      }
      if data.items != [] {
        var rows := ItemRows(id, data.items, itemIds);
        assert o.tables.items == kept || o.tables.items == kept + rows;
        ItemRowsRoundTrip(id, data.items, itemIds);
        ItemsOfUnreferenced(rows, other);
        FilterConcat(kept, rows, (it: InvoiceItem) => it.invoiceId == other);
      } else {
        assert o.tables.items == kept;
      }
    } else {
      assert o.tables.items == t.items;
    }
  }

  /** The caller's identity plays no part in what an update writes: the code
      does not check that the invoice belongs to the caller. */
  lemma UpdateIgnoresOwner(t: Tables, u1: UserId, u2: UserId, id: Id, data: InvoiceData,
                           itemIds: seq<Id>, now: Timestamp, fault: Fault)
    requires |itemIds| == |data.items|
    ensures UpdateInvoiceSpec(t, Some(u1), id, data, itemIds, now, fault)
         == UpdateInvoiceSpec(t, Some(u2), id, data, itemIds, now, fault)
  {
  }
}
