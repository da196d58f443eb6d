/** The factory list's search box and delete button: a factory is shown
    when its name or address contains the query, ignoring case, and the
    delete button hands the shown factory's id to `deleteFactory`. */
module FactoryList {
  import opened Base
  import opened Schema
  import Store
  import FactoryActions

  function LowerChar(c: char): (r: char)
    ensures 'A' <= c <= 'Z' ==> r as int == c as int + 32
    ensures !('A' <= c <= 'Z') ==> r == c
  {
    if 'A' <= c <= 'Z' then (c as int + 32) as char else c
  }

  /** `toLowerCase()` on ASCII letters; other characters are kept. */
  function ToLower(s: string): (r: string)
    ensures |r| == |s| && forall i :: 0 <= i < |s| ==> r[i] == LowerChar(s[i])
  {
    seq(|s|, i requires 0 <= i < |s| => LowerChar(s[i]))
  }

  lemma ToLowerIdempotent(s: string)
    ensures ToLower(ToLower(s)) == ToLower(s)
  {
  }

  /** `needle` occurs in `hay` starting at position `i`. */
  predicate OccursAt(hay: string, needle: string, i: nat) {
    i + |needle| <= |hay| && hay[i..i + |needle|] == needle
  }

  /** `hay.includes(needle)`, scanning start positions from the left. */
  function Contains(hay: string, needle: string): (r: bool)
    ensures r <==> exists i: nat :: OccursAt(hay, needle, i)
    decreases |hay|
  {
    if |needle| <= |hay| && hay[..|needle|] == needle then
      assert OccursAt(hay, needle, 0);
      true
    else if |hay| <= |needle| then
      assert |needle| <= |hay| ==> hay[0..|needle|] == hay[..|needle|];
      false
    else
      var r := Contains(hay[1..], needle);
      assert forall i: nat :: OccursAt(hay[1..], needle, i) <==> OccursAt(hay, needle, i + 1) by {
        forall i: nat ensures OccursAt(hay[1..], needle, i) <==> OccursAt(hay, needle, i + 1) {
          if i + |needle| <= |hay[1..]| {
            assert hay[1..][i..i + |needle|] == hay[i + 1..i + 1 + |needle|];
          }
        }
      }
      assert !OccursAt(hay, needle, 0) by {
        assert hay[..|needle|] == hay[0..|needle|];
      }
      assert (exists i: nat :: OccursAt(hay, needle, i)) ==> exists i: nat :: OccursAt(hay[1..], needle, i) by {
        if exists i: nat :: OccursAt(hay, needle, i) {
          var i: nat :| OccursAt(hay, needle, i);
          assert i != 0;
          assert OccursAt(hay[1..], needle, i - 1);
        }
      }
      r
  }

  /** Line 40-41: the predicate the filter applies. */
  predicate Matches(f: Factory, query: string) {
    Contains(ToLower(f.name), ToLower(query)) || Contains(ToLower(f.address), ToLower(query))
  }

  /** `filteredFactories` (lines 39-42). */
  function FilteredFactories(factories: seq<Factory>, query: string): (r: seq<Factory>)
    ensures |r| <= |factories| && forall i :: 0 <= i < |r| ==> r[i] in factories && Matches(r[i], query)
  {
    Filter(factories, (f: Factory) => Matches(f, query))
  }

  /** A factory is shown exactly when it is in the list and its lower-cased
      name or address contains the lower-cased query; the shown list is the
      input list with rows deleted, in order and unchanged. */
  lemma FilteredFactoriesSpec(factories: seq<Factory>, query: string)
    ensures forall f :: f in FilteredFactories(factories, query) <==> f in factories && Matches(f, query)
    ensures IsSubsequence(FilteredFactories(factories, query), factories)
  {
    var p := (f: Factory) => Matches(f, query);
    forall f | f in factories && Matches(f, query) ensures f in FilteredFactories(factories, query) {
      InFilter(factories, p, f);
    }
    forall f | f in FilteredFactories(factories, query) ensures f in factories && Matches(f, query) {
      FromFilter(factories, p, f);
    }
    FilterIsSubsequence(factories, p);
  }

  /** An empty query shows every factory, as `includes("")` always holds. */
  lemma EmptyQueryShowsAll(factories: seq<Factory>)
    ensures FilteredFactories(factories, "") == factories
  {
    forall i | 0 <= i < |factories| ensures Matches(factories[i], "") {
      assert OccursAt(ToLower(factories[i].name), ToLower(""), 0);
    }
    FilterKeepsAll(factories, (f: Factory) => Matches(f, ""));
  }

  /** The query's letter case does not matter. */
  lemma QueryCaseIgnored(factories: seq<Factory>, query: string)
    ensures FilteredFactories(factories, ToLower(query)) == FilteredFactories(factories, query)
  {
    ToLowerIdempotent(query);
    FilterCongruent(factories, (f: Factory) => Matches(f, ToLower(query)), (f: Factory) => Matches(f, query));
  }

  /** `handleDelete(factory.id)` (lines 44-48, 102): deleting a factory shown
      in the caller's list sends its id, and removes exactly that factory,
      with its invoices. */
  lemma DeletingShownFactory(db: Store.Database, uid: UserId, query: string, clicked: Factory)
    requires clicked in FilteredFactories(FactoryActions.GetFactories(db, Some(uid), false), query)
    ensures var o := FactoryActions.DeleteFactorySpec(db.Snapshot(), Some(uid), clicked.id, Store.NoFault);
      && o.result == Store.Success(None)
      && clicked !in o.tables.factories
      && (forall inv :: inv in o.tables.invoices ==> inv.factoryId != clicked.id)
      && (forall f :: f in db.factories && f.id != clicked.id ==> f in o.tables.factories)
  {
    var shown := FactoryActions.GetFactories(db, Some(uid), false);
    FromFilter(shown, (f: Factory) => Matches(f, query), clicked);
    assert clicked in db.factories && clicked.userId == uid;
    FactoryActions.DeleteOwnFactoryCascades(db.Snapshot(), clicked, Store.NoFault);
    FactoryActions.DeleteFactoryEffect(db.Snapshot(), Some(uid), clicked.id, Store.NoFault);
  }
}
