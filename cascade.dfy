/** The `onDelete: "cascade"` references of the schema: deleting a factory
    deletes the invoices that reference it, deleting an invoice deletes its
    items, and deleting a user deletes that user's factories, customers and
    invoices (and, transitively, everything hanging off them). */
module Cascade {
  import opened Base
  import opened Schema

  /** Ids of the factories a delete removes. */
  function GoneFactories(fs: seq<Factory>, doomed: Factory -> bool): set<Id> {
    set f | f in fs && doomed(f) :: f.id
  }

  /** Ids of the invoices that reference one of the removed factories. */
  function GoneInvoices(invs: seq<Invoice>, goneF: set<Id>): set<Id> {
    set inv | inv in invs && inv.factoryId in goneF :: inv.id
  }

  /** `delete from factories where doomed(row)` with both cascades applied. */
  function DeleteFactoriesWhere(t: Tables, doomed: Factory -> bool): (r: Tables)
    ensures r.users == t.users && r.customers == t.customers
  {
    var goneF := GoneFactories(t.factories, doomed);
    var goneI := GoneInvoices(t.invoices, goneF);
    t.(factories := Filter(t.factories, (f: Factory) => !doomed(f)),
       invoices := Filter(t.invoices, (inv: Invoice) => inv.factoryId !in goneF),
       items := Filter(t.items, (it: InvoiceItem) => it.invoiceId !in goneI))
  }

  predicate OwnedMatch(f: Factory, id: Id, uid: UserId) {
    f.id == id && f.userId == uid
  }

  /** `delete from factories where id = ? and user_id = ?`, cascading. */
  function DeleteOwnedFactory(t: Tables, id: Id, uid: UserId): (r: Tables)
    ensures r.users == t.users && r.customers == t.customers
    ensures |r.factories| <= |t.factories| && |r.invoices| <= |t.invoices| && |r.items| <= |t.items|
    ensures forall i :: 0 <= i < |r.factories| ==> !OwnedMatch(r.factories[i], id, uid)
  {
    DeleteFactoriesWhere(t, (f: Factory) => OwnedMatch(f, id, uid))
  }

  lemma MemberId(fs: seq<Factory>, f: Factory)
    requires f in fs
    ensures f.id in Ids(fs, FactoryKey)
  {
    var k :| 0 <= k < |fs| && fs[k] == f;
    assert Ids(fs, FactoryKey)[k] == f.id;
  }

  lemma MemberInvoiceId(invs: seq<Invoice>, inv: Invoice)
    requires inv in invs
    ensures inv.id in Ids(invs, InvoiceKey)
  {
    var k :| 0 <= k < |invs| && invs[k] == inv;
    assert Ids(invs, InvoiceKey)[k] == inv.id;
  }

  lemma MemberUserId(us: seq<User>, u: User)
    requires u in us
    ensures u.id in Ids(us, UserKey)
  {
    var k :| 0 <= k < |us| && us[k] == u;
    assert Ids(us, UserKey)[k] == u.id;
  }

  lemma {:induction false} DeleteFactoriesKeys(t: Tables, doomed: Factory -> bool)
    requires KeysUnique(t)
    ensures KeysUnique(DeleteFactoriesWhere(t, doomed))
  {
    var goneF := GoneFactories(t.factories, doomed);
    var goneI := GoneInvoices(t.invoices, goneF);
    FilterUniqueKeys(t.factories, (f: Factory) => !doomed(f), FactoryKey);
    FilterUniqueKeys(t.invoices, (inv: Invoice) => inv.factoryId !in goneF, InvoiceKey);
    FilterUniqueKeys(t.items, (it: InvoiceItem) => it.invoiceId !in goneI, ItemKey);
  }

  lemma {:induction false} DeleteFactoriesFactoryRefs(t: Tables, doomed: Factory -> bool)
    requires FactoryRefsOk(t)
    ensures FactoryRefsOk(DeleteFactoriesWhere(t, doomed))
  {
    var r := DeleteFactoriesWhere(t, doomed);
    forall i | 0 <= i < |r.factories| ensures r.factories[i].userId in Ids(r.users, UserKey) {
      FromFilter(t.factories, (f: Factory) => !doomed(f), r.factories[i]);
      var k :| 0 <= k < |t.factories| && t.factories[k] == r.factories[i];
    }
  }

  lemma {:induction false} DeleteFactoriesInvoiceRefs(t: Tables, doomed: Factory -> bool)
    requires InvoiceRefsOk(t)
    ensures InvoiceRefsOk(DeleteFactoriesWhere(t, doomed))
  {
    var r := DeleteFactoriesWhere(t, doomed);
    var goneF := GoneFactories(t.factories, doomed);
    forall i | 0 <= i < |r.invoices|
      ensures r.invoices[i].factoryId in Ids(r.factories, FactoryKey) && r.invoices[i].userId in Ids(r.users, UserKey)
    {
      var inv := r.invoices[i];
      FromFilter(t.invoices, (inv: Invoice) => inv.factoryId !in goneF, inv);
      var k :| 0 <= k < |t.invoices| && t.invoices[k] == inv;
      var j :| 0 <= j < |t.factories| && Ids(t.factories, FactoryKey)[j] == inv.factoryId;
      var f := t.factories[j];
      InFilter(t.factories, (f: Factory) => !doomed(f), f);
      MemberId(r.factories, f);
    }
  }

  lemma {:induction false} DeleteFactoriesItemRefs(t: Tables, doomed: Factory -> bool)
    requires ItemRefsOk(t)
    ensures ItemRefsOk(DeleteFactoriesWhere(t, doomed))
  {
    var r := DeleteFactoriesWhere(t, doomed);
    var goneF := GoneFactories(t.factories, doomed);
    var goneI := GoneInvoices(t.invoices, goneF);
    forall i | 0 <= i < |r.items| ensures r.items[i].invoiceId in Ids(r.invoices, InvoiceKey) {
      var it := r.items[i];
      FromFilter(t.items, (it: InvoiceItem) => it.invoiceId !in goneI, it);
      var k :| 0 <= k < |t.items| && t.items[k] == it;
      var j :| 0 <= j < |t.invoices| && Ids(t.invoices, InvoiceKey)[j] == it.invoiceId;
      var inv := t.invoices[j];
      InFilter(t.invoices, (inv: Invoice) => inv.factoryId !in goneF, inv);
      MemberInvoiceId(r.invoices, inv);
    }
  }

  /** A cascading factory delete leaves a database whose keys are still
      unique and whose references all still resolve. */
  lemma DeleteFactoriesKeepsIntegrity(t: Tables, doomed: Factory -> bool)
    requires Integrity(t)
    ensures Integrity(DeleteFactoriesWhere(t, doomed))
  {
    DeleteFactoriesKeys(t, doomed);
    DeleteFactoriesFactoryRefs(t, doomed);
    DeleteFactoriesInvoiceRefs(t, doomed);
    DeleteFactoriesItemRefs(t, doomed);
  }

  /** Exactly the caller's factory with that id is deleted; every other factory stays. */
  lemma DeleteOwnedFactoryFactories(t: Tables, id: Id, uid: UserId)
    ensures var r := DeleteOwnedFactory(t, id, uid);
      && r.users == t.users && r.customers == t.customers
      && forall f :: f in r.factories <==> f in t.factories && !OwnedMatch(f, id, uid)
  {
    var r := DeleteOwnedFactory(t, id, uid);
    var p := (f: Factory) => !OwnedMatch(f, id, uid);
    forall f ensures f in r.factories <==> f in t.factories && !OwnedMatch(f, id, uid) {
      if f in r.factories { FromFilter(t.factories, p, f); }
      if f in t.factories && !OwnedMatch(f, id, uid) { InFilter(t.factories, p, f); }
    }
  }

  /** Invoices of other factories survive, and nothing new appears. */
  lemma DeleteOwnedFactoryInvoices(t: Tables, id: Id, uid: UserId)
    ensures var r := DeleteOwnedFactory(t, id, uid);
      && (forall inv :: inv in t.invoices && inv.factoryId != id ==> inv in r.invoices)
      && (forall inv :: inv in r.invoices ==> inv in t.invoices)
  {
    var r := DeleteOwnedFactory(t, id, uid);
    var goneF := GoneFactories(t.factories, (f: Factory) => OwnedMatch(f, id, uid));
    var p := (inv: Invoice) => inv.factoryId !in goneF;
    assert goneF <= {id};
    forall inv | inv in t.invoices && inv.factoryId != id ensures inv in r.invoices {
      InFilter(t.invoices, p, inv);
    }
    forall inv | inv in r.invoices ensures inv in t.invoices {
      FromFilter(t.invoices, p, inv);
    }
  }

  /** The items of every surviving invoice survive, and nothing new appears. */
  lemma {:induction false} DeleteOwnedFactoryItems(t: Tables, id: Id, uid: UserId)
    requires KeysUnique(t)
    ensures var r := DeleteOwnedFactory(t, id, uid);
      && (forall it :: it in r.items ==> it in t.items)
      && (forall it :: it in t.items && it.invoiceId in Ids(r.invoices, InvoiceKey) ==> it in r.items)
  {
    var doomed := (f: Factory) => OwnedMatch(f, id, uid);
    var r := DeleteOwnedFactory(t, id, uid);
    var goneF := GoneFactories(t.factories, doomed);
    var goneI := GoneInvoices(t.invoices, goneF);
    var pi := (inv: Invoice) => inv.factoryId !in goneF;
    var pt := (it: InvoiceItem) => it.invoiceId !in goneI;
    forall it | it in r.items ensures it in t.items {
      FromFilter(t.items, pt, it);
    }
    forall it | it in t.items && it.invoiceId in Ids(r.invoices, InvoiceKey) ensures it in r.items {
      InFilter(t.items, pt, it);
    }
  }

  /** The deleted factory takes all of its invoices and their items with it. */
  lemma DeleteOwnedFactoryRemovesInvoices(t: Tables, f: Factory)
    requires f in t.factories
    ensures var r := DeleteOwnedFactory(t, f.id, f.userId);
      && (forall inv :: inv in r.invoices ==> inv.factoryId != f.id)
      && (forall it, inv :: it in r.items && inv in t.invoices && inv.id == it.invoiceId ==> inv.factoryId != f.id)
  {
    var doomed := (g: Factory) => OwnedMatch(g, f.id, f.userId);
    var goneF := GoneFactories(t.factories, doomed);
    assert f.id in goneF;
    var r := DeleteOwnedFactory(t, f.id, f.userId);
    var goneI := GoneInvoices(t.invoices, goneF);
    forall inv | inv in r.invoices ensures inv.factoryId != f.id {
      FromFilter(t.invoices, (inv: Invoice) => inv.factoryId !in goneF, inv);
    }
    forall it, inv | it in r.items && inv in t.invoices && inv.id == it.invoiceId ensures inv.factoryId != f.id {
      FromFilter(t.items, (it: InvoiceItem) => it.invoiceId !in goneI, it);
    }
  }

  /** Deleting an id the caller does not own changes nothing. */
  lemma {:induction false} DeleteNotOwnedIsNoOp(t: Tables, id: Id, uid: UserId)
    requires forall i :: 0 <= i < |t.factories| ==> !OwnedMatch(t.factories[i], id, uid)
    ensures DeleteOwnedFactory(t, id, uid) == t
  {
    var doomed := (f: Factory) => OwnedMatch(f, id, uid);
    var goneF := GoneFactories(t.factories, doomed);
    assert goneF == {};
    var goneI := GoneInvoices(t.invoices, goneF);
    assert goneI == {};
    FilterKeepsAll(t.factories, (f: Factory) => !doomed(f));
    FilterKeepsAll(t.invoices, (inv: Invoice) => inv.factoryId !in goneF);
    FilterKeepsAll(t.items, (it: InvoiceItem) => it.invoiceId !in goneI);
  }

  /** Ids of the invoices a user delete removes: the user's own invoices and
      every invoice of one of the user's factories. */
  function GoneInvoicesOfUser(invs: seq<Invoice>, u: UserId, goneF: set<Id>): set<Id> {
    set inv | inv in invs && (inv.userId == u || inv.factoryId in goneF) :: inv.id
  }

  /** `delete from users where id = u` with every cascade applied. */
  function DeleteUser(t: Tables, u: UserId): (r: Tables)
    ensures |r.users| <= |t.users| && |r.factories| <= |t.factories| && |r.customers| <= |t.customers|
    ensures |r.invoices| <= |t.invoices| && |r.items| <= |t.items|
    ensures forall i :: 0 <= i < |r.users| ==> r.users[i].id != u
    ensures forall i :: 0 <= i < |r.customers| ==> r.customers[i].userId != u
  {
    var goneF := GoneFactories(t.factories, (f: Factory) => f.userId == u);
    var goneI := GoneInvoicesOfUser(t.invoices, u, goneF);
    Tables(
      Filter(t.users, (x: User) => x.id != u),
      Filter(t.factories, (f: Factory) => f.userId != u),
      Filter(t.customers, (c: Customer) => c.userId != u),
      Filter(t.invoices, (inv: Invoice) => inv.userId != u && inv.factoryId !in goneF),
      Filter(t.items, (it: InvoiceItem) => it.invoiceId !in goneI))
  }

  lemma {:induction false} DeleteUserKeys(t: Tables, u: UserId)
    requires KeysUnique(t)
    ensures KeysUnique(DeleteUser(t, u))
  {
    var goneF := GoneFactories(t.factories, (f: Factory) => f.userId == u);
    var goneI := GoneInvoicesOfUser(t.invoices, u, goneF);
    FilterUniqueKeys(t.users, (x: User) => x.id != u, UserKey);
    FilterUniqueKeys(t.factories, (f: Factory) => f.userId != u, FactoryKey);
    FilterUniqueKeys(t.customers, (c: Customer) => c.userId != u, CustomerKey);
    FilterUniqueKeys(t.invoices, (inv: Invoice) => inv.userId != u && inv.factoryId !in goneF, InvoiceKey);
    FilterUniqueKeys(t.items, (it: InvoiceItem) => it.invoiceId !in goneI, ItemKey);
  }

  /** A surviving row's owner is not `u`, so that owner survives too. */
  lemma UserSurvives(t: Tables, u: UserId, owner: UserId)
    requires owner in Ids(t.users, UserKey) && owner != u
    ensures owner in Ids(DeleteUser(t, u).users, UserKey)
  {
    var j :| 0 <= j < |t.users| && Ids(t.users, UserKey)[j] == owner;
    InFilter(t.users, (x: User) => x.id != u, t.users[j]);
    MemberUserId(DeleteUser(t, u).users, t.users[j]);
  }

  lemma {:induction false} DeleteUserOwnerRefs(t: Tables, u: UserId)
    requires FactoryRefsOk(t) && CustomerRefsOk(t)
    ensures FactoryRefsOk(DeleteUser(t, u)) && CustomerRefsOk(DeleteUser(t, u))
  {
    var r := DeleteUser(t, u);
    forall i | 0 <= i < |r.factories| ensures r.factories[i].userId in Ids(r.users, UserKey) {
      FromFilter(t.factories, (f: Factory) => f.userId != u, r.factories[i]);
      var k :| 0 <= k < |t.factories| && t.factories[k] == r.factories[i];
      UserSurvives(t, u, r.factories[i].userId);
    }
    forall i | 0 <= i < |r.customers| ensures r.customers[i].userId in Ids(r.users, UserKey) {
      FromFilter(t.customers, (c: Customer) => c.userId != u, r.customers[i]);
      var k :| 0 <= k < |t.customers| && t.customers[k] == r.customers[i];
      UserSurvives(t, u, r.customers[i].userId);
    }
  }

  lemma {:induction false} DeleteUserInvoiceRefs(t: Tables, u: UserId)
    requires InvoiceRefsOk(t)
    ensures InvoiceRefsOk(DeleteUser(t, u))
  {
    var r := DeleteUser(t, u);
    var goneF := GoneFactories(t.factories, (f: Factory) => f.userId == u);
    forall i | 0 <= i < |r.invoices|
      ensures r.invoices[i].factoryId in Ids(r.factories, FactoryKey) && r.invoices[i].userId in Ids(r.users, UserKey)
    {
      var inv := r.invoices[i];
      FromFilter(t.invoices, (inv: Invoice) => inv.userId != u && inv.factoryId !in goneF, inv);
      var k :| 0 <= k < |t.invoices| && t.invoices[k] == inv;
      var j :| 0 <= j < |t.factories| && Ids(t.factories, FactoryKey)[j] == inv.factoryId;
      var f := t.factories[j];
      InFilter(t.factories, (f: Factory) => f.userId != u, f);
      MemberId(r.factories, f);
      UserSurvives(t, u, inv.userId);
    }
  }

  lemma {:induction false} DeleteUserItemRefs(t: Tables, u: UserId)
    requires ItemRefsOk(t)
    ensures ItemRefsOk(DeleteUser(t, u))
  {
    var r := DeleteUser(t, u);
    var goneF := GoneFactories(t.factories, (f: Factory) => f.userId == u);
    var goneI := GoneInvoicesOfUser(t.invoices, u, goneF);
    forall i | 0 <= i < |r.items| ensures r.items[i].invoiceId in Ids(r.invoices, InvoiceKey) {
      var it := r.items[i];
      FromFilter(t.items, (it: InvoiceItem) => it.invoiceId !in goneI, it);
      var k :| 0 <= k < |t.items| && t.items[k] == it;
      var j :| 0 <= j < |t.invoices| && Ids(t.invoices, InvoiceKey)[j] == it.invoiceId;
      var inv := t.invoices[j];
      InFilter(t.invoices, (inv: Invoice) => inv.userId != u && inv.factoryId !in goneF, inv);
      MemberInvoiceId(r.invoices, inv);
    }
  }

  /** A user delete keeps the database consistent. */
  lemma DeleteUserKeepsIntegrity(t: Tables, u: UserId)
    requires Integrity(t)
    ensures Integrity(DeleteUser(t, u))
  {
    DeleteUserKeys(t, u);
    DeleteUserOwnerRefs(t, u);
    DeleteUserInvoiceRefs(t, u);
    DeleteUserItemRefs(t, u);
  }

  /** After a user delete nothing owned by that user remains, and the other
      users' factories and customers are untouched. */
  lemma DeleteUserRemovesOwned(t: Tables, u: UserId)
    ensures var r := DeleteUser(t, u);
      && u !in Ids(r.users, UserKey)
      && (forall f :: f in r.factories <==> f in t.factories && f.userId != u)
      && (forall c :: c in r.customers <==> c in t.customers && c.userId != u)
      && (forall inv :: inv in r.invoices ==> inv in t.invoices && inv.userId != u)
  {
    var r := DeleteUser(t, u);
    var goneF := GoneFactories(t.factories, (f: Factory) => f.userId == u);
    forall f ensures f in r.factories <==> f in t.factories && f.userId != u {
      if f in r.factories { FromFilter(t.factories, (f: Factory) => f.userId != u, f); }
      if f in t.factories && f.userId != u { InFilter(t.factories, (f: Factory) => f.userId != u, f); }
    }
    forall c ensures c in r.customers <==> c in t.customers && c.userId != u {
      if c in r.customers { FromFilter(t.customers, (c: Customer) => c.userId != u, c); }
      if c in t.customers && c.userId != u { InFilter(t.customers, (c: Customer) => c.userId != u, c); }
    }
    forall inv | inv in r.invoices ensures inv in t.invoices && inv.userId != u {
      FromFilter(t.invoices, (inv: Invoice) => inv.userId != u && inv.factoryId !in goneF, inv);
    }
  }
}
