/** The factory server actions: every row a user creates is stamped with
    that user's id, and reads and deletes only see the caller's rows. */
module FactoryActions {
  import opened Base
  import opened Schema
  import opened Store
  import Cascade

  /** The form data `createFactory` receives. */
  datatype FactoryInput = FactoryInput(name: string, address: string, gstin: Option<string>)

  const CreateError := "Failed to create factory"
  const DeleteError := "Failed to delete factory"

  /** The row an insert at time `now` stores, `newId` being the drawn UUID. */
  function FactoryRow(input: FactoryInput, uid: UserId, newId: Id, now: Timestamp): Factory {
    Factory(newId, input.name, input.address, input.gstin, uid, now, now)
  }

  /** What `createFactory(data)` does (lines 11-32); statement 0 is the insert. */
  function CreateFactorySpec(t: Tables, session: Option<UserId>, input: FactoryInput,
                             newId: Id, now: Timestamp, fault: Fault): (o: Outcome)
    ensures o.tables.users == t.users && o.tables.customers == t.customers
    ensures o.tables.invoices == t.invoices && o.tables.items == t.items
    ensures o.result.Success? ==> session.Some? && |o.tables.factories| == |t.factories| + 1
  {
    if session.None? then Outcome(t, Failure("Unauthorized"))
    else
      var row := FactoryRow(input, session.value, newId, now);
      if Raises(fault, 0) || !CanInsertFactory(t, row) then Outcome(t, Failure(CreateError))
      else Outcome(t.(factories := t.factories + [row]), Success(None))
  }

  method CreateFactory(db: Database, session: Option<UserId>, input: FactoryInput,
                       newId: Id, now: Timestamp, fault: Fault) returns (r: ActionResult)
    requires db.Valid()
    modifies db
    ensures db.Valid()
    ensures Outcome(db.Snapshot(), r) == CreateFactorySpec(old(db.Snapshot()), session, input, newId, now, fault)
  {
    if session.None? {
      return Failure("Unauthorized");
    }
    var ok := db.InsertFactory(FactoryRow(input, session.value, newId, now), Raises(fault, 0));
    r := if ok then Success(None) else Failure(CreateError);
  }

  /** A create either fails and writes nothing, or appends exactly one
      factory with the submitted fields, owned by the caller. */
  lemma CreateFactoryEffect(t: Tables, session: Option<UserId>, input: FactoryInput,
                            newId: Id, now: Timestamp, fault: Fault)
    ensures var o := CreateFactorySpec(t, session, input, newId, now, fault);
      && (session.None? ==> o.result == Failure("Unauthorized"))
      && (o.result.Failure? ==> o.tables == t && o.result.error in {"Unauthorized", CreateError})
      && (o.result.Success? ==>
            && session.Some? && o.result.invoiceId.None?
            && o.tables == t.(factories := o.tables.factories)
            && |o.tables.factories| == |t.factories| + 1
            && o.tables.factories[..|t.factories|] == t.factories
            && var f := o.tables.factories[|t.factories|];
            && f.name == input.name && f.address == input.address && f.gstin == input.gstin
            && f.userId == session.value && f.id !in Ids(t.factories, FactoryKey))
  {
    if CreateFactorySpec(t, session, input, newId, now, fault).result.Success? {
      assert (t.factories + [FactoryRow(input, session.value, newId, now)])[..|t.factories|] == t.factories;
    }
  }

  /** With a healthy store, a signed-in user that exists and a fresh id, a
      create succeeds. */
  lemma CreateFactorySucceeds(t: Tables, uid: UserId, input: FactoryInput, newId: Id, now: Timestamp)
    requires uid in Ids(t.users, UserKey) && newId !in Ids(t.factories, FactoryKey)
    ensures CreateFactorySpec(t, Some(uid), input, newId, now, NoFault).result == Success(None)
  {
  }

  /** `getFactories()` (lines 34-48): the caller's factories in table order;
      [] without a session or when the read fails. */
  function GetFactories(db: Database, session: Option<UserId>, fails: bool): (r: seq<Factory>)
    reads db
    ensures session.None? || fails ==> r == []
    ensures session.Some? && !fails ==>
      && (forall i :: 0 <= i < |r| ==> r[i] in db.factories && r[i].userId == session.value)
      && (forall i :: 0 <= i < |db.factories| && db.factories[i].userId == session.value ==> db.factories[i] in r)
  {
    if session.None? || fails then []
    else Filter(db.factories, (f: Factory) => f.userId == session.value)
  }

  /** The list is taken from the table without reordering or altering rows. */
  lemma GetFactoriesIsSublist(db: Database, session: Option<UserId>, fails: bool)
    ensures IsSubsequence(GetFactories(db, session, fails), db.factories)
  {
    if session.Some? && !fails {
      FilterIsSubsequence(db.factories, (f: Factory) => f.userId == session.value);
    }
  }

  function FirstOf<T>(s: seq<T>): (r: Option<T>)
    ensures r.None? <==> s == []
    ensures r.Some? ==> r.value == s[0]
  {
    if s == [] then None else Some(s[0])
  }

  /** `getFactory(id)` (lines 50-63): the factory with that id, only when
      the caller owns it; nothing without a session or when the read fails. */
  function GetFactory(db: Database, session: Option<UserId>, id: Id, fails: bool): (r: Option<Factory>)
    reads db
    ensures r.Some? ==>
      session.Some? && !fails && r.value in db.factories && r.value.id == id && r.value.userId == session.value
    ensures r.None? ==>
      session.None? || fails || forall i :: 0 <= i < |db.factories| ==> !(db.factories[i].id == id && db.factories[i].userId == session.value)
  {
    if session.None? || fails then None
    else FirstOf(Filter(db.factories, (f: Factory) => f.id == id && f.userId == session.value))
  }

  /** What `deleteFactory(id)` does (lines 65-77): an owner-filtered delete
      with the declared cascades; statement 0 is the delete. */
  function DeleteFactorySpec(t: Tables, session: Option<UserId>, id: Id, fault: Fault): (o: Outcome)
    ensures o.tables.users == t.users && o.tables.customers == t.customers
    ensures |o.tables.factories| <= |t.factories|
    ensures o.result.Success? <==> session.Some? && !Raises(fault, 0)
  {
    if session.None? then Outcome(t, Failure("Unauthorized"))
    else if Raises(fault, 0) then Outcome(t, Failure(DeleteError))
    else Outcome(Cascade.DeleteOwnedFactory(t, id, session.value), Success(None))
  }

  method DeleteFactory(db: Database, session: Option<UserId>, id: Id, fault: Fault) returns (r: ActionResult)
    requires db.Valid()
    modifies db
    ensures db.Valid()
    ensures Outcome(db.Snapshot(), r) == DeleteFactorySpec(old(db.Snapshot()), session, id, fault)
  {
    if session.None? {
      return Failure("Unauthorized");
    }
    var ok := db.DeleteOwnedFactory(id, session.value, Raises(fault, 0));
    r := if ok then Success(None) else Failure(DeleteError);
  }

  /** A failed or refused delete writes nothing. A successful one removes
      exactly the factories with that id owned by the caller, and with them
      their invoices; users and customers stay. */
  lemma DeleteFactoryEffect(t: Tables, session: Option<UserId>, id: Id, fault: Fault)
    ensures var o := DeleteFactorySpec(t, session, id, fault);
      && (o.result.Failure? ==> o.tables == t && o.result.error in {"Unauthorized", DeleteError})
      && (session.None? ==> o.result == Failure("Unauthorized"))
      && (o.result.Success? ==>
            && session.Some?
            && o.tables.users == t.users && o.tables.customers == t.customers
            && (forall f :: f in o.tables.factories <==>
                  f in t.factories && !(f.id == id && f.userId == session.value))
            && (forall inv :: inv in o.tables.invoices ==> inv in t.invoices)
            && (forall inv :: inv in t.invoices && inv.factoryId != id ==> inv in o.tables.invoices))
  {
    if session.Some? && !Raises(fault, 0) {
      Cascade.DeleteOwnedFactoryFactories(t, id, session.value);
      Cascade.DeleteOwnedFactoryInvoices(t, id, session.value);
    }
  }

  /** Deleting one's own factory removes every invoice of it and every item
      of those invoices. */
  lemma DeleteOwnFactoryCascades(t: Tables, f: Factory, fault: Fault)
    requires f in t.factories && !Raises(fault, 0)
    ensures var o := DeleteFactorySpec(t, Some(f.userId), f.id, fault);
      && o.result == Success(None)
      && f !in o.tables.factories
      && (forall inv :: inv in o.tables.invoices ==> inv.factoryId != f.id)
      && (forall it, inv :: it in o.tables.items && inv in t.invoices && inv.id == it.invoiceId ==> inv.factoryId != f.id)
  {
    Cascade.DeleteOwnedFactoryRemovesInvoices(t, f);
    Cascade.DeleteOwnedFactoryFactories(t, f.id, f.userId);
  }

  /** Asking to delete a factory the caller does not own changes nothing and
      still reports success. */
  lemma DeleteNotOwnedSucceeds(t: Tables, uid: UserId, id: Id)
    requires forall i :: 0 <= i < |t.factories| ==> !(t.factories[i].id == id && t.factories[i].userId == uid)
    ensures DeleteFactorySpec(t, Some(uid), id, NoFault) == Outcome(t, Success(None))
  {
    forall i | 0 <= i < |t.factories| ensures !Cascade.OwnedMatch(t.factories[i], id, uid) {
    }
    Cascade.DeleteNotOwnedIsNoOp(t, id, uid);
  }
}
