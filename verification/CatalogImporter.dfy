/** The import as one call on the catalog tables: validate, upsert, bump, and commit or roll back. */
module CatalogImporter {
  import opened Common
  import opened Upsert
  import opened CatalogImport

  function SummaryOf(ts: Tables, src: Source): Summary {
    var es := SelectedItems(src.region, src.rows);
    Summary(|src.rows|, |es|, UnknownPrices(es), InvalidPrices(src.rows), WithoutProduct(src.rows), Repeats(src.rows),
            TallyOf(Tally(0, 0, 0), ts.restaurants, RestaurantEntries(src, src.places)),
            TallyOf(Tally(0, 0, 0), ts.categories, CategoryEntries(src.region, src.menuPlaces)),
            TallyOf(Tally(0, 0, 0), ts.items, es))
  }

  function Members(s: seq<Id>): set<Id> {
    set id | id in s
  }

  /** Some fixed order of the ids. */
  method Listed(ids: set<Id>) returns (order: seq<Id>)
    ensures Members(order) == ids
    ensures forall i, j :: 0 <= i < j < |order| ==> order[i] != order[j]
  {
    order := [];
    var rest := ids;
    while rest != {}
      invariant rest <= ids && Members(order) == ids - rest
      invariant forall i :: 0 <= i < |order| ==> order[i] in Members(order)
      invariant forall i, j :: 0 <= i < j < |order| ==> order[i] != order[j]
      decreases |rest|
    {
      var id :| id in rest;
      assert Members(order + [id]) == Members(order) + {id};
      order, rest := order + [id], rest - {id};
    }
  }

  lemma BumpedTwice(t: Table<Listing, Standing>, a: set<Id>, b: set<Id>)
    requires a !! b
    ensures Bumped(Bumped(t, a), b) == Bumped(t, a + b)
  {
  }

  lemma NextSlice(order: seq<Id>, lo: nat, hi: nat)
    requires lo <= hi <= |order|
    requires forall i, j :: 0 <= i < j < |order| ==> order[i] != order[j]
    ensures Members(order[..hi]) == Members(order[..lo]) + Members(order[lo..hi])
    ensures Members(order[..lo]) !! Members(order[lo..hi])
  {
    assert order[..hi] == order[..lo] + order[lo..hi];
  }

  class Catalog {
    var restaurants: Table<Listing, Standing>
    var categories: Table<Heading, Nothing>
    var items: Table<Dish, Extras>

    ghost function State(): Tables
      reads this
    {
      Tables(restaurants, categories, items)
    }

    constructor ()
      ensures State() == Tables(map[], map[], map[])
    {
      restaurants, categories, items := map[], map[], map[];
    }

    /** One UPDATE per slice of the changed restaurants that are not new. */
    method IncrementMenuRevisions(changed: set<Id>, created: set<Id>, size: nat)
      requires size >= 1
      modifies this`restaurants
      ensures restaurants == Bumped(old(restaurants), changed - created)
    {
      var order := Listed(changed - created);
      ghost var start := restaurants;
      var lo := 0;
      BumpNothing(start);
      assert order[..0] == [];
      while lo < |order|
        invariant lo <= |order|
        invariant restaurants == Bumped(start, Members(order[..lo]))
      {
        var hi := lo + Min(size, |order| - lo);
        var slice := order[lo..hi];
        NextSlice(order, lo, hi);
        BumpedTwice(start, Members(order[..lo]), Members(slice));
        restaurants := map id | id in restaurants ::
          if id in slice then restaurants[id].(kept := restaurants[id].kept.(menuRevision := restaurants[id].kept.menuRevision + 1))
          else restaurants[id];
        assert restaurants == Bumped(Bumped(start, Members(order[..lo])), Members(slice));
        lo := hi;
      }
      assert order[..|order|] == order;
    }

    /**
     Check the region, the environment and the batch size, in this order, then upsert everything under the
     normalized region; a failure or a dry run leaves the tables as they were.
     */
    method Import(region: string, environment: string, loaded: Source, size: nat, apply: bool) returns (r: Result<Summary, ImportError>)
      requires ValidSource(loaded)
      modifies this
      ensures r == Err(UnsupportedRegion) <==> NormalizedRegion(region).None?
      ensures r == Err(UnsafeEnvironment) <==> NormalizedRegion(region).Some? && environment !in SAFE_ENVIRONMENTS
      ensures r == Err(BatchSizeTooSmall) <==> NormalizedRegion(region).Some? && environment in SAFE_ENVIRONMENTS && size == 0
      ensures NormalizedRegion(region).Some? && environment in SAFE_ENVIRONMENTS && size >= 1 ==>
                (r.Ok? <==> Succeeds(old(State()), loaded.(region := NormalizedRegion(region).value), size))
      ensures State() == if r.Ok? && apply then Imported(old(State()), loaded.(region := NormalizedRegion(region).value)) else old(State())
      ensures r.Ok? ==> r.value == SummaryOf(old(State()), loaded.(region := NormalizedRegion(region).value))
    {
      var normalized := NormalizedRegion(region);
      if normalized.None? { return Err(UnsupportedRegion); }
      if environment !in SAFE_ENVIRONMENTS { return Err(UnsafeEnvironment); }
      if size < 1 { return Err(BatchSizeTooSmall); }
      var savedRestaurants, savedCategories, savedItems := restaurants, categories, items;
      var imported := ImportAll(loaded.(region := normalized.value), size);
      r := if imported.Ok? then Ok(imported.value) else Err(Failed(imported.error));
      if r.Err? || !apply {
        restaurants, categories, items := savedRestaurants, savedCategories, savedItems;
      }
    }

    method ImportAll(src: Source, size: nat) returns (r: Result<Summary, RowError>)
      requires ValidSource(src) && size >= 1
      modifies this
      ensures r.Ok? <==> Succeeds(old(State()), src, size)
      ensures r.Ok? ==> State() == Imported(old(State()), src) && r.value == SummaryOf(old(State()), src)
    {
      ghost var start := State();
      RestaurantsDistinct(src);
      CategoriesDistinct(src);
      ItemsDistinct(src.region, src.rows);
      BatchesExact(start.restaurants, RestaurantEntries(src, src.places), size);
      var r1 := UpsertInBatches(restaurants, RestaurantEntries(src, src.places), size);
      if r1.Err? { return Err(Refused(r1.error)); }
      restaurants := r1.value.table;
      var r2 := UpsertInBatches(categories, CategoryEntries(src.region, src.menuPlaces), size);
      if r2.Err? { return Err(Refused(r2.error)); }
      categories := r2.value.table;
      var r3, counters := ImportMenuItems(items, src.region, src.rows, size);
      if r3.Err? { return Err(r3.error); }
      items := r3.value.table;
      UpToAll(start.restaurants, RestaurantEntries(src, src.places), r1.value);
      UpToAll(start.categories, CategoryEntries(src.region, src.menuPlaces), r2.value);
      UpToAll(start.items, SelectedItems(src.region, src.rows), r3.value);
      IncrementMenuRevisions(r2.value.changed + r3.value.changed, r1.value.inserted, size);
      return Ok(Summary(|src.rows|, counters.imported, counters.unknownPrice, counters.invalidPrice, counters.withoutProduct, counters.repeats,
                        r1.value.tally, r2.value.tally, r3.value.tally));
    }
  }

  lemma UpToAll<M, U>(t: Table<M, U>, es: seq<Entry<M, U>>, state: Change<M, U>)
    requires UpTo(t, es, |es|, state)
    ensures state == Change(Applied(t, es), InsertedIds(t, es), ChangedScopes(t, es), TallyOf(Tally(0, 0, 0), t, es))
  {
    assert es[..|es|] == es;
  }
}
