/**
 The regional catalog import: restaurants, one menu category per place with a menu, menu items,
 and the revision of every existing restaurant whose menu changed. One transaction.
 */
module CatalogImport {
  import opened Common
  import opened Upsert

  const MAX_MENU_PRICE := 500_000
  const MENU_SLUG := "menu"

  // ------------------------------------------------------------------------- tables

  datatype Listing = Listing(
    name: string, category: string, address: string, phone: Option<string>,
    latitude: real, longitude: real, currency: string, timezone: string, verified: bool, published: bool)

  /** What an import sets only when it creates a restaurant. */
  datatype Standing = Standing(owner: Option<nat>, ratingCount: nat, menuRevision: nat)

  datatype Heading = Heading(name: string, sortOrder: int, active: bool)

  datatype Dish = Dish(
    category: Id, name: string, description: string, price: Option<nat>, currency: string,
    recommended: bool, image: Option<string>, available: bool, sortOrder: int)

  /** Spice level and the like, set on insert. */
  datatype Extras = Extras(spiceLevel: nat)

  datatype Nothing = Nothing

  datatype Tables = Tables(
    restaurants: Table<Listing, Standing>,
    categories: Table<Heading, Nothing>,
    items: Table<Dish, Extras>)

  // ------------------------------------------------------------------------- source

  datatype Place = Place(
    placeId: string, name: string, categoryName: string, groupCode: string, phone: string,
    roadAddress: string, lotAddress: string, latitude: real, longitude: real)

  /** A menu row of a chosen source; its photo address is already normalised, a price that is no integer is out of range. */
  datatype MenuRow = MenuRow(
    placeId: string, productId: Option<string>, name: string, description: string, price: Option<int>,
    photo: Option<string>, recommended: bool, soldOut: bool, ordinal: int)

  datatype Source = Source(
    region: string,
    places: seq<Place>,
    covers: map<string, string>,
    menuPlaces: seq<string>,
    rows: seq<MenuRow>)

  predicate IsSpace(c: char) {
    c == ' ' || c == '\t' || c == '\n' || c == '\r'
  }

  function StripLeft(s: string): string {
    if s != "" && IsSpace(s[0]) then StripLeft(s[1..]) else s
  }

  function StripRight(s: string): string {
    if s != "" && IsSpace(s[|s| - 1]) then StripRight(s[..|s| - 1]) else s
  }

  function Strip(s: string): string {
    StripRight(StripLeft(s))
  }

  /** A text without blanks at its ends. */
  predicate IsTight(s: string) {
    s != "" ==> !IsSpace(s[0]) && !IsSpace(s[|s| - 1])
  }

  predicate IsBlank(s: string) {
    forall i :: 0 <= i < |s| ==> IsSpace(s[i])
  }

  lemma {:induction false} StripLeftCuts(s: string) returns (n: nat)
    ensures n <= |s| && StripLeft(s) == s[n..] && IsBlank(s[..n]) && (n < |s| ==> !IsSpace(s[n]))
  {
    if s != "" && IsSpace(s[0]) {
      var m := StripLeftCuts(s[1..]);
      n := m + 1;
      assert s[n..] == s[1..][m..] && s[..n] == [s[0]] + s[1..][..m];
    } else {
      n := 0;
    }
  }

  lemma {:induction false} StripRightCuts(s: string) returns (n: nat)
    ensures n <= |s| && StripRight(s) == s[..n] && IsBlank(s[n..]) && (n > 0 ==> !IsSpace(s[n - 1]))
  {
    if s != "" && IsSpace(s[|s| - 1]) {
      n := StripRightCuts(s[..|s| - 1]);
      assert s[..n] == s[..|s| - 1][..n] && s[n..] == s[..|s| - 1][n..] + [s[|s| - 1]];
    } else {
      n := |s|;
    }
  }

  /** Stripping cuts off the blanks at both ends and nothing else. */
  lemma StripCutsBlanks(s: string) returns (before: string, after: string)
    ensures s == before + Strip(s) + after && IsBlank(before) && IsBlank(after) && IsTight(Strip(s))
  {
    var n := StripLeftCuts(s);
    var m := StripRightCuts(StripLeft(s));
    before, after := s[..n], s[n..][m..];
    if m > 0 { assert StripLeft(s)[0] == s[n]; }
  }

  predicate IsDigit(c: char) {
    '0' <= c <= '9'
  }

  function Lower(s: string): (r: string)
    ensures |r| == |s| && forall i :: 0 <= i < |s| ==> r[i] == if 'A' <= s[i] <= 'Z' then (s[i] as int + 32) as char else s[i]
  {
    if s == "" then "" else [if 'A' <= s[0] <= 'Z' then s[0] - 'A' + 'a' else s[0]] + Lower(s[1..])
  }

  /** The regions that have source databases. */
  const REGIONS := {"gyeonggi", "jeju", "seoul"}

  /** Where an import may run. */
  const SAFE_ENVIRONMENTS := {"local", "test"}

  function NormalizedRegion(region: string): Option<string> {
    if Lower(Strip(region)) in REGIONS then Some(Lower(Strip(region))) else None
  }

  function NumericIdentifier(raw: string): Option<string> {
    var s := Strip(raw);
    if s != "" && forall i :: 0 <= i < |s| ==> IsDigit(s[i]) then Some(s) else None
  }

  function PlaceIdOf(raw: string): string {
    var id := NumericIdentifier(raw);
    if id.Some? then id.value else ""
  }

  /** What loading the two source databases has established. */
  ghost predicate ValidSource(src: Source) {
    && (forall i :: 0 <= i < |src.places| ==> NumericIdentifier(src.places[i].placeId).Some?)
    && (forall i, j :: 0 <= i < j < |src.places| ==> PlaceIdOf(src.places[i].placeId) != PlaceIdOf(src.places[j].placeId))
    && (forall i, j :: 0 <= i < j < |src.menuPlaces| ==> src.menuPlaces[i] != src.menuPlaces[j])
    && (forall i :: 0 <= i < |src.rows| ==> NumericIdentifier(src.rows[i].placeId).Some?)
  }

  // ------------------------------------------------------------------- desired rows

  function RestaurantId(region: string, place: string): Id {
    Generated(region, "restaurant", [place])
  }

  function CategoryId(region: string, place: string): Id {
    Generated(region, "menu-category", [place, MENU_SLUG])
  }

  function ItemId(region: string, place: string, product: string): Id {
    Generated(region, "menu-item", [place, product])
  }

  function RestaurantCategory(p: Place): string {
    if Strip(p.categoryName) != "" then Strip(p.categoryName)
    else if Strip(p.groupCode) == "CE7" then "카페"
    else "음식점"
  }

  function RestaurantEntry(src: Source, p: Place): Entry<Listing, Standing> {
    var place := PlaceIdOf(p.placeId);
    var address := if Strip(p.roadAddress) != "" then Strip(p.roadAddress) else Strip(p.lotAddress);
    var phone := if Strip(p.phone) != "" then Some(Strip(p.phone)) else None;
    var cover := if p.placeId in src.covers then Some(src.covers[p.placeId]) else None;
    Entry(RestaurantId(src.region, place),
          Row(Key(EVERYWHERE, src.region + "-kakao-" + place), Some("@" + src.region + "." + place), cover,
              Listing(Strip(p.name), RestaurantCategory(p), address, phone, p.latitude, p.longitude, "KRW", "Asia/Seoul", false, true),
              Standing(None, 0, 1)))
  }

  function CategoryEntry(region: string, place: string): Entry<Heading, Nothing> {
    Entry(CategoryId(region, place),
          Row(Key(RestaurantId(region, place), MENU_SLUG), None, None, Heading("Menu", 0, true), Nothing))
  }

  /** A price outside 1..500,000 is imported as unknown. */
  function NormalizedPrice(raw: Option<int>): Option<nat> {
    if raw.Some? && 1 <= raw.value <= MAX_MENU_PRICE then Some(raw.value) else None
  }

  function ItemEntry(region: string, product: string, row: MenuRow): Entry<Dish, Extras> {
    var place := PlaceIdOf(row.placeId);
    Entry(ItemId(region, place, product),
          Row(Key(RestaurantId(region, place), "kakao-" + product), None, None,
              Dish(CategoryId(region, place), Strip(row.name), Strip(row.description), NormalizedPrice(row.price), "KRW",
                   row.recommended, row.photo, !row.soldOut, if row.ordinal < 0 then 0 else row.ordinal),
              Extras(0)))
  }

  function RestaurantEntries(src: Source, places: seq<Place>): (es: seq<Entry<Listing, Standing>>)
    ensures |es| == |places| && forall i :: 0 <= i < |es| ==> es[i] == RestaurantEntry(src, places[i])
  {
    if places == [] then []
    else RestaurantEntries(src, places[..|places| - 1]) + [RestaurantEntry(src, places[|places| - 1])]
  }

  function CategoryEntries(region: string, places: seq<string>): (es: seq<Entry<Heading, Nothing>>)
    ensures |es| == |places| && forall i :: 0 <= i < |es| ==> es[i] == CategoryEntry(region, places[i])
  {
    if places == [] then []
    else CategoryEntries(region, places[..|places| - 1]) + [CategoryEntry(region, places[|places| - 1])]
  }

  // ------------------------------------------------------------- selection of menu items

  /** The product a row stands for: its place and its product id, if it has one. */
  function ProductOf(row: MenuRow): Option<(string, string)> {
    if row.productId.None? || NumericIdentifier(row.productId.value).None? then None
    else Some((PlaceIdOf(row.placeId), NumericIdentifier(row.productId.value).value))
  }

  predicate ProductIdsNumeric(rows: seq<MenuRow>) {
    forall i :: 0 <= i < |rows| ==> rows[i].productId.Some? ==> NumericIdentifier(rows[i].productId.value).Some?
  }

  function SeenProducts(rows: seq<MenuRow>): set<(string, string)> {
    set i | 0 <= i < |rows| && ProductOf(rows[i]).Some? :: ProductOf(rows[i]).value
  }

  predicate IsRepeat(rows: seq<MenuRow>, row: MenuRow) {
    ProductOf(row).Some? && ProductOf(row).value in SeenProducts(rows)
  }

  /** The desired item rows: rows with a product that no earlier row has. */
  function SelectedItems(region: string, rows: seq<MenuRow>): seq<Entry<Dish, Extras>> {
    if rows == [] then []
    else
      var front, last := rows[..|rows| - 1], rows[|rows| - 1];
      if ProductOf(last).None? || IsRepeat(front, last) then SelectedItems(region, front)
      else SelectedItems(region, front) + [ItemEntry(region, ProductOf(last).value.1, last)]
  }

  function WithoutProduct(rows: seq<MenuRow>): nat {
    if rows == [] then 0
    else WithoutProduct(rows[..|rows| - 1]) + if rows[|rows| - 1].productId.None? then 1 else 0
  }

  function Repeats(rows: seq<MenuRow>): nat {
    if rows == [] then 0
    else Repeats(rows[..|rows| - 1]) + if IsRepeat(rows[..|rows| - 1], rows[|rows| - 1]) then 1 else 0
  }

  /** Conservation: every selected row is imported, skipped for its missing product id, or a repeat. */
  lemma {:induction false} EveryRowIsAccountedFor(region: string, rows: seq<MenuRow>)
    requires ProductIdsNumeric(rows)
    ensures |rows| == |SelectedItems(region, rows)| + WithoutProduct(rows) + Repeats(rows)
  {
    if rows != [] {
      EveryRowIsAccountedFor(region, rows[..|rows| - 1]);
    }
  }

  /** A price that the source gives and the import does not accept. */
  predicate HasInvalidPrice(row: MenuRow) {
    row.price.Some? && NormalizedPrice(row.price).None?
  }

  /** Imported rows whose given price was replaced by an unknown one. */
  function InvalidPrices(rows: seq<MenuRow>): nat {
    if rows == [] then 0
    else
      var front, last := rows[..|rows| - 1], rows[|rows| - 1];
      InvalidPrices(front) + if ProductOf(last).Some? && !IsRepeat(front, last) && HasInvalidPrice(last) then 1 else 0
  }

  /** Imported rows for which the source gives no price. */
  function MissingPrices(rows: seq<MenuRow>): nat {
    if rows == [] then 0
    else
      var front, last := rows[..|rows| - 1], rows[|rows| - 1];
      MissingPrices(front) + if ProductOf(last).Some? && !IsRepeat(front, last) && last.price.None? then 1 else 0
  }

  lemma OneMoreExplained(region: string, front: seq<MenuRow>, last: MenuRow)
    requires UnknownPrices(SelectedItems(region, front)) == InvalidPrices(front) + MissingPrices(front)
    ensures UnknownPrices(SelectedItems(region, front + [last])) == InvalidPrices(front + [last]) + MissingPrices(front + [last])
  {
    assert (front + [last])[..|front|] == front;
    if ProductOf(last).Some? && !IsRepeat(front, last) {
      OneMoreUnknown(SelectedItems(region, front), EntryOfRow(region, last));
    }
  }

  /** Every unknown price is either missing in the source or out of range there. */
  lemma {:induction false} UnknownPricesAreExplained(region: string, rows: seq<MenuRow>)
    ensures UnknownPrices(SelectedItems(region, rows)) == InvalidPrices(rows) + MissingPrices(rows)
  {
    if rows != [] {
      UnknownPricesAreExplained(region, rows[..|rows| - 1]);
      OneMoreExplained(region, rows[..|rows| - 1], rows[|rows| - 1]);
      assert rows[..|rows| - 1] + [rows[|rows| - 1]] == rows;
    }
  }

  predicate FirstOfProduct(rows: seq<MenuRow>, i: int)
    requires 0 <= i < |rows|
  {
    ProductOf(rows[i]).Some? && forall j :: 0 <= j < i ==> ProductOf(rows[j]) != ProductOf(rows[i])
  }

  function EntryOfRow(region: string, row: MenuRow): Entry<Dish, Extras>
    requires ProductOf(row).Some?
  {
    ItemEntry(region, ProductOf(row).value.1, row)
  }

  /** The first row of each product wins. */
  lemma {:induction false} FirstOccurrenceWins(region: string, rows: seq<MenuRow>, i: nat)
    requires i < |rows| && FirstOfProduct(rows, i)
    ensures EntryOfRow(region, rows[i]) in SelectedItems(region, rows)
  {
    LastIsFirst(rows);
    if i < |rows| - 1 {
      FirstOccurrenceWins(region, rows[..|rows| - 1], i);
    }
  }

  /** Only first rows are imported. */
  lemma {:induction false} OnlyFirstOccurrences(region: string, rows: seq<MenuRow>, e: Entry<Dish, Extras>) returns (i: nat)
    requires e in SelectedItems(region, rows)
    ensures i < |rows| && FirstOfProduct(rows, i) && e == EntryOfRow(region, rows[i])
  {
    var n := |rows| - 1;
    LastIsFirst(rows);
    if e in SelectedItems(region, rows[..n]) {
      i := OnlyFirstOccurrences(region, rows[..n], e);
      assert forall j :: 0 <= j <= i ==> rows[..n][j] == rows[j];
    } else {
      i := n;
    }
  }

  lemma LastIsFirst(rows: seq<MenuRow>)
    requires rows != []
    ensures FirstOfProduct(rows, |rows| - 1) <==>
              ProductOf(rows[|rows| - 1]).Some? && !IsRepeat(rows[..|rows| - 1], rows[|rows| - 1])
  {
    var n := |rows| - 1;
    if ProductOf(rows[n]).Some? && !FirstOfProduct(rows, n) {
      var j :| 0 <= j < n && ProductOf(rows[j]) == ProductOf(rows[n]);
      assert rows[..n][j] == rows[j];
    }
  }

  // -------------------------------------------------------------- sources are distinct

  lemma PrefixCancels(prefix: string, a: string, b: string)
    requires prefix + a == prefix + b
    ensures a == b
  {
    assert (prefix + a)[|prefix|..] == a && (prefix + b)[|prefix|..] == b;
  }

  lemma RestaurantsDistinct(src: Source)
    requires ValidSource(src)
    ensures Distinct(RestaurantEntries(src, src.places))
  {
    var es := RestaurantEntries(src, src.places);
    forall i, j | 0 <= i < j < |es| ensures Differ(es[i], es[j]) {
      var a, b := PlaceIdOf(src.places[i].placeId), PlaceIdOf(src.places[j].placeId);
      if src.region + "-kakao-" + a == src.region + "-kakao-" + b { PrefixCancels(src.region + "-kakao-", a, b); }
      if "@" + src.region + "." + a == "@" + src.region + "." + b { PrefixCancels("@" + src.region + ".", a, b); }
      assert [a][0] != [b][0];
    }
  }

  lemma CategoriesDistinct(src: Source)
    requires ValidSource(src)
    ensures Distinct(CategoryEntries(src.region, src.menuPlaces))
  {
    var es := CategoryEntries(src.region, src.menuPlaces);
    forall i, j | 0 <= i < j < |es| ensures Differ(es[i], es[j]) {
      assert [src.menuPlaces[i], MENU_SLUG][0] != [src.menuPlaces[j], MENU_SLUG][0];
      assert [src.menuPlaces[i]][0] != [src.menuPlaces[j]][0];
    }
  }

  lemma ProductsDiffer(region: string, a: MenuRow, b: MenuRow)
    requires ProductOf(a).Some? && ProductOf(b).Some? && ProductOf(a) != ProductOf(b)
    ensures Differ(EntryOfRow(region, a), EntryOfRow(region, b))
  {
    var p, q := ProductOf(a).value, ProductOf(b).value;
    var x, y := EntryOfRow(region, a), EntryOfRow(region, b);
    if p.1 == q.1 {
      assert [p.0, p.1][0] != [q.0, q.1][0];
      assert [p.0][0] != [q.0][0];
    } else {
      assert [p.0, p.1][1] != [q.0, q.1][1];
      if "kakao-" + p.1 == "kakao-" + q.1 { PrefixCancels("kakao-", p.1, q.1); }
    }
  }

  lemma {:induction false} ItemsDistinct(region: string, rows: seq<MenuRow>)
    ensures Distinct(SelectedItems(region, rows))
  {
    if rows != [] {
      var n := |rows| - 1;
      var front, last := rows[..n], rows[n];
      var es := SelectedItems(region, front);
      ItemsDistinct(region, front);
      if ProductOf(last).Some? && !IsRepeat(front, last) {
        forall i | 0 <= i < |es| ensures Differ(es[i], EntryOfRow(region, last)) {
          var k := OnlyFirstOccurrences(region, front, es[i]);
          assert ProductOf(front[k]).value in SeenProducts(front);
          ProductsDiffer(region, front[k], last);
        }
      }
    }
  }

  // ------------------------------------------------------------------- the whole import

  datatype Summary = Summary(
    selectedRows: nat, imported: nat, unknownPrice: nat, invalidPrice: nat, withoutProduct: nat, repeats: nat,
    restaurants: Tally, categories: Tally, items: Tally)

  datatype RowError = InvalidIdentifier | Refused(error: UpsertError)

  datatype ImportError = UnsupportedRegion | UnsafeEnvironment | BatchSizeTooSmall | Failed(error: RowError)

  function Bumped(t: Table<Listing, Standing>, ids: set<Id>): Table<Listing, Standing> {
    map id | id in t ::
      if id in ids then t[id].(kept := t[id].kept.(menuRevision := t[id].kept.menuRevision + 1)) else t[id]
  }

  function MenuChanges(ts: Tables, src: Source): set<Id> {
    ChangedScopes(ts.categories, CategoryEntries(src.region, src.menuPlaces))
    + ChangedScopes(ts.items, SelectedItems(src.region, src.rows))
  }

  ghost predicate Succeeds(ts: Tables, src: Source, size: nat)
    requires size >= 1
  {
    && ProductIdsNumeric(src.rows)
    && Batches(ts.restaurants, RestaurantEntries(src, src.places), size).Ok?
    && Batches(ts.categories, CategoryEntries(src.region, src.menuPlaces), size).Ok?
    && Batches(ts.items, SelectedItems(src.region, src.rows), size).Ok?
  }

  function Imported(ts: Tables, src: Source): Tables {
    var es := RestaurantEntries(src, src.places);
    Tables(
      Bumped(Applied(ts.restaurants, es), MenuChanges(ts, src) - InsertedIds(ts.restaurants, es)),
      Applied(ts.categories, CategoryEntries(src.region, src.menuPlaces)),
      Applied(ts.items, SelectedItems(src.region, src.rows)))
  }

  lemma NoHandlesNoBlocks<M, U>(t: Table<M, U>, es: seq<Entry<M, U>>, size: nat)
    requires size >= 1 && forall i :: 0 <= i < |es| ==> es[i].row.handle.None?
    ensures HandlesFreeInBatches(t, es, size)
  {
  }

  lemma OnesAreFree<M, U>(t: Table<M, U>, es: seq<Entry<M, U>>)
    ensures HandlesFreeInBatches(t, es, 1)
  {
  }

  lemma {:induction false} ItemsHaveNoHandles(region: string, rows: seq<MenuRow>)
    ensures forall i :: 0 <= i < |SelectedItems(region, rows)| ==> SelectedItems(region, rows)[i].row.handle.None?
  {
    if rows != [] {
      ItemsHaveNoHandles(region, rows[..|rows| - 1]);
    }
  }

  /**
   Every successful import, with any batch size, is the row-by-row import of the same source; and a batch size
   succeeds exactly when the row-by-row import does and no restaurant of a batch wants a handle that an earlier
   one of the same batch still holds.
   */
  lemma ImportIsRowByRow(ts: Tables, src: Source, size: nat)
    requires size >= 1 && ValidSource(src)
    ensures Succeeds(ts, src, size) <==>
              Succeeds(ts, src, 1) && HandlesFreeInBatches(ts.restaurants, RestaurantEntries(src, src.places), size)
    ensures Succeeds(ts, src, 1) <==>
              ProductIdsNumeric(src.rows)
              && RowByRow(ts.restaurants, RestaurantEntries(src, src.places)).Ok?
              && RowByRow(ts.categories, CategoryEntries(src.region, src.menuPlaces)).Ok?
              && RowByRow(ts.items, SelectedItems(src.region, src.rows)).Ok?
    ensures Succeeds(ts, src, size) ==>
              RowByRow(ts.restaurants, RestaurantEntries(src, src.places)) == Ok(Applied(ts.restaurants, RestaurantEntries(src, src.places)))
              && RowByRow(ts.categories, CategoryEntries(src.region, src.menuPlaces)) == Ok(Imported(ts, src).categories)
              && RowByRow(ts.items, SelectedItems(src.region, src.rows)) == Ok(Imported(ts, src).items)
  {
    var rs, cs, es := RestaurantEntries(src, src.places), CategoryEntries(src.region, src.menuPlaces), SelectedItems(src.region, src.rows);
    RestaurantsDistinct(src);
    CategoriesDistinct(src);
    ItemsDistinct(src.region, src.rows);
    ItemsHaveNoHandles(src.region, src.rows);
    NoHandlesNoBlocks(ts.categories, cs, size);
    NoHandlesNoBlocks(ts.items, es, size);
    OnesAreFree(ts.restaurants, rs);
    OnesAreFree(ts.categories, cs);
    OnesAreFree(ts.items, es);
    BatchesExact(ts.restaurants, rs, size);
    BatchesExact(ts.restaurants, rs, 1);
    BatchesExact(ts.categories, cs, size);
    BatchesExact(ts.categories, cs, 1);
    BatchesExact(ts.items, es, size);
    BatchesExact(ts.items, es, 1);
  }

  // ------------------------------------------------------------------------ revisions

  /** A row below the restaurant appeared or changed. */
  ghost predicate Touched<M(!new), U(!new)>(t: Table<M, U>, t': Table<M, U>, restaurant: Id) {
    exists id :: id in t' && t'[id].key.scope == restaurant && (id !in t || t'[id] != t[id])
  }

  lemma ChangedScopesExact<M(!new), U(!new)>(t: Table<M, U>, es: seq<Entry<M, U>>, restaurant: Id)
    requires Distinct(es) && RowByRow(t, es).Ok?
    ensures restaurant in ChangedScopes(t, es) <==> Touched(t, Applied(t, es), restaurant)
  {
    var t' := Applied(t, es);
    AppliedAt(t, es);
    AppliedIsSettled(t, es);
    if restaurant in ChangedScopes(t, es) {
      var e :| e in es && !OutcomeOf(t, e).Unchanged? && e.row.key.scope == restaurant;
      var i :| 0 <= i < |es| && es[i] == e;
      assert e.id in t' && t'[e.id] == Placed(t, e);
    }
    if Touched(t, t', restaurant) {
      var id :| id in t' && t'[id].key.scope == restaurant && (id !in t || t'[id] != t[id]);
      assert Names(es, id);
      var i :| 0 <= i < |es| && es[i].id == id;
      assert es[i] in es;
    }
  }

  lemma InsertedIdsExact<M, U>(t: Table<M, U>, es: seq<Entry<M, U>>, id: Id)
    requires Distinct(es)
    ensures id in InsertedIds(t, es) <==> id !in t && id in Applied(t, es)
  {
    AppliedAt(t, es);
    if id !in t && id in Applied(t, es) {
      var i :| 0 <= i < |es| && es[i].id == id;
      assert es[i] in es;
    }
    if id in InsertedIds(t, es) {
      var e :| e in es && OutcomeOf(t, e).Inserted? && e.id == id;
    }
  }

  /** Some row of the restaurant's menu appeared or changed in the import. */
  ghost predicate MenuTouched(ts: Tables, ts': Tables, restaurant: Id) {
    Touched(ts.categories, ts'.categories, restaurant) || Touched(ts.items, ts'.items, restaurant)
  }

  lemma MenuChangesExact(ts: Tables, src: Source, size: nat, id: Id)
    requires size >= 1 && ValidSource(src) && Succeeds(ts, src, size)
    ensures id in MenuChanges(ts, src) <==> MenuTouched(ts, Imported(ts, src), id)
  {
    ImportIsRowByRow(ts, src, size);
    CategoriesDistinct(src);
    ItemsDistinct(src.region, src.rows);
    ChangedScopesExact(ts.categories, CategoryEntries(src.region, src.menuPlaces), id);
    ChangedScopesExact(ts.items, SelectedItems(src.region, src.rows), id);
  }

  lemma BumpedAt(t: Table<Listing, Standing>, t': Table<Listing, Standing>, changed: set<Id>, inserted: set<Id>, id: Id)
    requires id in t'
    requires id in inserted <==> id !in t
    requires t'[id].kept.menuRevision == if id in t then t[id].kept.menuRevision else 1
    ensures Bumped(t', changed - inserted)[id].kept.menuRevision ==
              if id !in t then 1 else t[id].kept.menuRevision + if id in changed then 1 else 0
  {
  }

  lemma RevisionCounted(ts: Tables, src: Source, id: Id)
    requires ValidSource(src) && id in Applied(ts.restaurants, RestaurantEntries(src, src.places))
    ensures Imported(ts, src).restaurants[id].kept.menuRevision ==
              if id !in ts.restaurants then 1
              else ts.restaurants[id].kept.menuRevision + if id in MenuChanges(ts, src) then 1 else 0
  {
    var rs := RestaurantEntries(src, src.places);
    RestaurantsDistinct(src);
    InsertedIdsExact(ts.restaurants, rs, id);
    KeptAtStart(ts.restaurants, src, id);
    BumpedAt(ts.restaurants, Applied(ts.restaurants, rs), MenuChanges(ts, src), InsertedIds(ts.restaurants, rs), id);
  }

  /** Existing restaurants go up by exactly one if a row of their menu appeared or changed, by zero otherwise; new ones start at one. */
  lemma RevisionsExact(ts: Tables, src: Source, size: nat, id: Id)
    requires size >= 1 && ValidSource(src) && Succeeds(ts, src, size)
    requires id in Imported(ts, src).restaurants
    ensures Imported(ts, src).restaurants[id].kept.menuRevision ==
              if id !in ts.restaurants then 1
              else ts.restaurants[id].kept.menuRevision + if MenuTouched(ts, Imported(ts, src), id) then 1 else 0
  {
    MenuChangesExact(ts, src, size, id);
    RevisionCounted(ts, src, id);
  }

  lemma KeptAtStart(t: Table<Listing, Standing>, src: Source, id: Id)
    requires ValidSource(src) && id in Applied(t, RestaurantEntries(src, src.places))
    ensures Applied(t, RestaurantEntries(src, src.places))[id].kept.menuRevision == if id in t then t[id].kept.menuRevision else 1
  {
    var rs := RestaurantEntries(src, src.places);
    RestaurantsDistinct(src);
    AppliedAt(t, rs);
    if Names(rs, id) {
      var i :| 0 <= i < |rs| && rs[i].id == id;
      assert rs[i] == RestaurantEntry(src, src.places[i]);
    }
  }

  /** A restaurant keeps its cover when the source has none. */
  lemma CoverIsKept(ts: Tables, src: Source, i: nat)
    requires ValidSource(src) && i < |src.places|
    ensures var e := RestaurantEntry(src, src.places[i]);
            var t' := Imported(ts, src).restaurants;
            && e.id in t'
            && t'[e.id].cover == if e.row.cover.None? && e.id in ts.restaurants then ts.restaurants[e.id].cover else e.row.cover
  {
    var rs := RestaurantEntries(src, src.places);
    RestaurantsDistinct(src);
    AppliedAt(ts.restaurants, rs);
    assert rs[i] == RestaurantEntry(src, src.places[i]);
  }

  // ------------------------------------------------------------- what the tables say then

  /** A successful batched or row-by-row upsert leaves every desired row under its key. */
  lemma UpsertedUnderKey<M, U>(t: Table<M, U>, es: seq<Entry<M, U>>, i: nat)
    requires Distinct(es) && RowByRow(t, es).Ok? && i < |es|
    ensures Upserted(t, Applied(t, es), es[i]) && Applied(t, es)[es[i].id].key == es[i].row.key
  {
    AppliedUpserts(t, es);
    RowByRowAcceptsEach(t, es);
    assert AcceptsInTurn(t, es, i);
    AcceptedKeepsKey(t, es, i);
  }

  /** What the catalog says of a place: its name, where it is and how to reach it. */
  predicate ListsPlace(row: Row<Listing, Standing>, region: string, place: string, p: Place) {
    && row.key == Key(EVERYWHERE, region + "-kakao-" + place)
    && row.handle == Some("@" + region + "." + place)
    && row.managed.name == Strip(p.name)
    && row.managed.category == (if Strip(p.categoryName) != "" then Strip(p.categoryName)
                                else if Strip(p.groupCode) == "CE7" then "카페" else "음식점")
    && row.managed.address == (if Strip(p.roadAddress) != "" then Strip(p.roadAddress) else Strip(p.lotAddress))
    && row.managed.phone == (if Strip(p.phone) != "" then Some(Strip(p.phone)) else None)
    && row.managed.latitude == p.latitude && row.managed.longitude == p.longitude
    && row.managed.currency == "KRW" && row.managed.timezone == "Asia/Seoul"
    && !row.managed.verified && row.managed.published
  }

  /** Owner and rating of a restaurant are its own; a new one has neither. */
  predicate KeepsStanding(t: Table<Listing, Standing>, t': Table<Listing, Standing>, id: Id)
    requires id in t'
  {
    t'[id].kept.owner == (if id in t then t[id].kept.owner else None)
    && t'[id].kept.ratingCount == (if id in t then t[id].kept.ratingCount else 0)
  }

  lemma BumpedKeepsRest(t: Table<Listing, Standing>, ids: set<Id>, id: Id)
    requires id in t
    ensures id in Bumped(t, ids)
    ensures Bumped(t, ids)[id] == t[id].(kept := t[id].kept.(menuRevision := Bumped(t, ids)[id].kept.menuRevision))
  {
  }

  lemma EntryListsPlace(src: Source, p: Place)
    ensures ListsPlace(RestaurantEntry(src, p).row, src.region, PlaceIdOf(p.placeId), p)
  {
  }

  /** After a successful import every place of the source is listed as the source describes it. */
  lemma RestaurantsFollowSource(ts: Tables, src: Source, size: nat, i: nat)
    requires size >= 1 && ValidSource(src) && Succeeds(ts, src, size) && i < |src.places|
    ensures var place := PlaceIdOf(src.places[i].placeId);
            var id := RestaurantId(src.region, place);
            var t' := Imported(ts, src).restaurants;
            && id in t' && ListsPlace(t'[id], src.region, place, src.places[i]) && KeepsStanding(ts.restaurants, t', id)
            && (src.places[i].placeId in src.covers ==> t'[id].cover == Some(src.covers[src.places[i].placeId]))
            && (src.places[i].placeId !in src.covers ==> t'[id].cover == if id in ts.restaurants then ts.restaurants[id].cover else None)
  {
    var rs := RestaurantEntries(src, src.places);
    RestaurantsDistinct(src);
    ImportIsRowByRow(ts, src, size);
    EntryListsPlace(src, src.places[i]);
    UpsertedUnderKey(ts.restaurants, rs, i);
    assert rs[i] == RestaurantEntry(src, src.places[i]);
    BumpedKeepsRest(Applied(ts.restaurants, rs), MenuChanges(ts, src) - InsertedIds(ts.restaurants, rs), rs[i].id);
  }

  /** Every place with a menu has its active category. */
  lemma CategoriesFollowSource(ts: Tables, src: Source, size: nat, i: nat)
    requires size >= 1 && ValidSource(src) && Succeeds(ts, src, size) && i < |src.menuPlaces|
    ensures var id := CategoryId(src.region, src.menuPlaces[i]);
            var t' := Imported(ts, src).categories;
            id in t' && t'[id].key == Key(RestaurantId(src.region, src.menuPlaces[i]), "menu") && t'[id].managed == Heading("Menu", 0, true)
  {
    CategoriesDistinct(src);
    ImportIsRowByRow(ts, src, size);
    UpsertedUnderKey(ts.categories, CategoryEntries(src.region, src.menuPlaces), i);
  }

  /** What the menu says of a row: an acceptable price as it is, any other as unknown. */
  predicate OffersRow(dish: Dish, region: string, row: MenuRow) {
    && dish.category == CategoryId(region, PlaceIdOf(row.placeId))
    && dish.name == Strip(row.name) && dish.description == Strip(row.description)
    && dish.price == (if row.price.Some? && 1 <= row.price.value <= 500_000 then Some(row.price.value) else None)
    && dish.currency == "KRW" && dish.recommended == row.recommended && dish.image == row.photo
    && dish.available == !row.soldOut
    && dish.sortOrder == (if row.ordinal >= 0 then row.ordinal else 0)
  }

  lemma EntryOffersRow(region: string, row: MenuRow)
    requires ProductOf(row).Some?
    ensures OffersRow(EntryOfRow(region, row).row.managed, region, row)
  {
  }

  /** After a successful import the menu offers the first row of every product as the source describes it. */
  lemma ItemsFollowSource(ts: Tables, src: Source, size: nat, i: nat)
    requires size >= 1 && ValidSource(src) && Succeeds(ts, src, size) && i < |src.rows| && FirstOfProduct(src.rows, i)
    ensures var place, product := PlaceIdOf(src.rows[i].placeId), NumericIdentifier(src.rows[i].productId.value).value;
            var id := ItemId(src.region, place, product);
            var t, t' := ts.items, Imported(ts, src).items;
            && id in t' && t'[id].key == Key(RestaurantId(src.region, place), "kakao-" + product)
            && OffersRow(t'[id].managed, src.region, src.rows[i])
            && t'[id].kept == if id in t then t[id].kept else Extras(0)
  {
    var es := SelectedItems(src.region, src.rows);
    ItemsDistinct(src.region, src.rows);
    ImportIsRowByRow(ts, src, size);
    FirstOccurrenceWins(src.region, src.rows, i);
    var k :| 0 <= k < |es| && es[k] == EntryOfRow(src.region, src.rows[i]);
    EntryOffersRow(src.region, src.rows[i]);
    UpsertedUnderKey(ts.items, es, k);
  }

  // --------------------------------------------------------------------- running again

  lemma BumpKeeps(t: Table<Listing, Standing>, ids: set<Id>, es: seq<Entry<Listing, Standing>>)
    ensures UniqueTable(t) ==> UniqueTable(Bumped(t, ids))
    ensures Settled(t, es) ==> Settled(Bumped(t, ids), es)
  {
    if Settled(t, es) {
      var t' := Bumped(t, ids);
      forall i | 0 <= i < |es|
        ensures es[i].id in t' && t'[es[i].id].key == es[i].row.key && Merge(t'[es[i].id], es[i].row) == t'[es[i].id]
      {
        assert Merge(t[es[i].id], es[i].row) == t[es[i].id];
      }
    }
  }

  lemma BumpNothing(t: Table<Listing, Standing>)
    ensures Bumped(t, {}) == t
  {
  }

  lemma SettledAfterRun<M, U>(t: Table<M, U>, es: seq<Entry<M, U>>)
    requires UniqueTable(t) && Distinct(es) && RowByRow(t, es).Ok?
    ensures UniqueTable(Applied(t, es)) && Settled(Applied(t, es), es)
  {
    RowByRowKeepsUnique(t, es);
    RowByRowAcceptsEach(t, es);
    AppliedIsSettled(t, es);
  }

  ghost predicate UniqueTables(ts: Tables) {
    UniqueTable(ts.restaurants) && UniqueTable(ts.categories) && UniqueTable(ts.items)
  }

  /** Idempotence: the same source right after an applied run succeeds with any batch size, finds every row unchanged and bumps nothing. */
  lemma RerunChangesNothing(ts: Tables, src: Source, size: nat, again: nat)
    requires size >= 1 && again >= 1 && ValidSource(src) && UniqueTables(ts) && Succeeds(ts, src, size)
    ensures var ts' := Imported(ts, src);
            && UniqueTables(ts')
            && Succeeds(ts', src, again) && Imported(ts', src) == ts'
            && TallyOf(Tally(0, 0, 0), ts'.restaurants, RestaurantEntries(src, src.places)) == Tally(0, 0, |src.places|)
            && TallyOf(Tally(0, 0, 0), ts'.categories, CategoryEntries(src.region, src.menuPlaces)) == Tally(0, 0, |src.menuPlaces|)
            && TallyOf(Tally(0, 0, 0), ts'.items, SelectedItems(src.region, src.rows)) == Tally(0, 0, |SelectedItems(src.region, src.rows)|)
  {
    var ts' := Imported(ts, src);
    var rs, cs, es := RestaurantEntries(src, src.places), CategoryEntries(src.region, src.menuPlaces), SelectedItems(src.region, src.rows);
    RestaurantsDistinct(src);
    CategoriesDistinct(src);
    ItemsDistinct(src.region, src.rows);
    ImportIsRowByRow(ts, src, size);
    SettledAfterRun(ts.restaurants, rs);
    SettledAfterRun(ts.categories, cs);
    SettledAfterRun(ts.items, es);
    BumpKeeps(Applied(ts.restaurants, rs), MenuChanges(ts, src) - InsertedIds(ts.restaurants, rs), rs);
    SettledRunsAgain(ts'.restaurants, rs, again);
    SettledRunsAgain(ts'.categories, cs, again);
    SettledRunsAgain(ts'.items, es, again);
    SettledApplies(ts'.restaurants, rs);
    SettledApplies(ts'.categories, cs);
    SettledApplies(ts'.items, es);
    BumpNothing(ts'.restaurants);
  }

  // --------------------------------------------------------------------------- the code

  function UnknownPrices(es: seq<Entry<Dish, Extras>>): nat {
    if es == [] then 0
    else UnknownPrices(es[..|es| - 1]) + if es[|es| - 1].row.managed.price.None? then 1 else 0
  }

  lemma {:induction false} SelectedGrows(region: string, rows: seq<MenuRow>, i: nat)
    requires i <= |rows|
    ensures SelectedItems(region, rows[..i]) <= SelectedItems(region, rows)
  {
    if i < |rows| {
      SelectedGrows(region, rows[..|rows| - 1], i);
      assert rows[..|rows| - 1][..i] == rows[..i];
    } else {
      assert rows[..i] == rows;
    }
  }

  /** What a streaming import of menu items has reached: all rows before `done` are upserted, the rest is pending. */
  ghost predicate Streaming(t: Table<Dish, Extras>, all: seq<Entry<Dish, Extras>>, done: nat, pending: seq<Entry<Dish, Extras>>,
                            state: Change<Dish, Extras>, size: nat)
    requires size >= 1
  {
    && done + |pending| <= |all|
    && pending == all[done..done + |pending|]
    && UpTo(t, all, done, state)
    && Batches(t, all, size) == Batches(state.table, all[done..], size)
  }

  /** The pending rows are the next batch: all of a full batch, or all that is left. */
  ghost predicate IsNextBatch(all: seq<Entry<Dish, Extras>>, done: nat, pending: seq<Entry<Dish, Extras>>, size: nat) {
    pending != [] && (|pending| == size || (|pending| < size && done + |pending| == |all|))
  }

  lemma FlushedBatches(t: Table<Dish, Extras>, all: seq<Entry<Dish, Extras>>, done: nat, pending: seq<Entry<Dish, Extras>>,
                       state: Change<Dish, Extras>, size: nat)
    requires size >= 1 && Streaming(t, all, done, pending, state, size) && IsNextBatch(all, done, pending, size)
    ensures var batch := Batch(state.table, pending);
            Batches(t, all, size) == if batch.Err? then batch else Batches(batch.value, all[done + |pending|..], size)
  {
    NextBatch(state.table, all, done, done + |pending|, size);
  }

  lemma FlushedStreaming(t: Table<Dish, Extras>, all: seq<Entry<Dish, Extras>>, done: nat, pending: seq<Entry<Dish, Extras>>,
                         state: Change<Dish, Extras>, size: nat, next: Change<Dish, Extras>)
    requires size >= 1 && Streaming(t, all, done, pending, state, size) && IsNextBatch(all, done, pending, size)
    requires Batch(state.table, pending) == Ok(next.table) && UpTo(t, all, done + |pending|, next)
    ensures Streaming(t, all, done + |pending|, [], next, size)
  {
    FlushedBatches(t, all, done, pending, state, size);
    assert all[done + |pending|..done + |pending|] == [];
  }

  /** Upsert the pending rows as one batch. */
  method FlushItems(ghost t: Table<Dish, Extras>, ghost all: seq<Entry<Dish, Extras>>, ghost done: nat,
                    pending: seq<Entry<Dish, Extras>>, state: Change<Dish, Extras>, size: nat)
    returns (r: Result<Change<Dish, Extras>, UpsertError>)
    requires size >= 1 && Distinct(all) && Streaming(t, all, done, pending, state, size)
    requires IsNextBatch(all, done, pending, size)
    ensures r.Err? ==> Batches(t, all, size).Err?
    ensures r.Ok? ==> Streaming(t, all, done + |pending|, [], r.value, size)
  {
    r := UpsertSlice(t, all, done, done + |pending|, pending, state);
    if r.Ok? {
      FlushedStreaming(t, all, done, pending, state, size, r.value);
    } else {
      FlushedBatches(t, all, done, pending, state, size);
    }
  }

  /** Upsert the pending rows if they fill a batch, keep them otherwise. */
  method FlushWhenFull(ghost t: Table<Dish, Extras>, ghost all: seq<Entry<Dish, Extras>>, ghost done: nat,
                       pending: seq<Entry<Dish, Extras>>, state: Change<Dish, Extras>, size: nat)
    returns (r: Result<Change<Dish, Extras>, UpsertError>, left: seq<Entry<Dish, Extras>>, ghost done': nat)
    requires 1 <= |pending| <= size && Distinct(all) && Streaming(t, all, done, pending, state, size)
    ensures r.Err? ==> Batches(t, all, size).Err?
    ensures r.Ok? ==> Streaming(t, all, done', left, r.value, size)
    ensures |left| < size && done' + |left| == done + |pending|
  {
    if |pending| < size { return Ok(state), pending, done; }
    r := FlushItems(t, all, done, pending, state, size);
    left, done' := [], done + |pending|;
  }

  /** The counters of one streaming pass. */
  datatype Counters = Counters(imported: nat, unknownPrice: nat, invalidPrice: nat, withoutProduct: nat, repeats: nat)

  ghost predicate CountersFit(counters: Counters, region: string, rows: seq<MenuRow>) {
    && counters.imported == |SelectedItems(region, rows)|
    && counters.unknownPrice == UnknownPrices(SelectedItems(region, rows))
    && counters.invalidPrice == InvalidPrices(rows)
    && counters.withoutProduct == WithoutProduct(rows)
    && counters.repeats == Repeats(rows)
  }

  lemma OneMoreRow(region: string, rows: seq<MenuRow>, i: nat)
    requires i < |rows|
    ensures var front, row := rows[..i], rows[i];
            && SelectedItems(region, rows[..i + 1]) ==
                 (if ProductOf(row).None? || IsRepeat(front, row) then SelectedItems(region, front)
                  else SelectedItems(region, front) + [ItemEntry(region, ProductOf(row).value.1, row)])
            && WithoutProduct(rows[..i + 1]) == WithoutProduct(front) + (if row.productId.None? then 1 else 0)
            && Repeats(rows[..i + 1]) == Repeats(front) + (if IsRepeat(front, row) then 1 else 0)
            && InvalidPrices(rows[..i + 1]) == InvalidPrices(front)
                 + (if ProductOf(row).Some? && !IsRepeat(front, row) && HasInvalidPrice(row) then 1 else 0)
            && SeenProducts(rows[..i + 1]) ==
                 SeenProducts(front) + if ProductOf(row).Some? then {ProductOf(row).value} else {}
  {
    assert rows[..i + 1][..i] == rows[..i];
    var next, front, row := rows[..i + 1], rows[..i], rows[i];
    forall p | p in SeenProducts(front) ensures p in SeenProducts(next) {
      var k :| 0 <= k < |front| && ProductOf(front[k]).Some? && ProductOf(front[k]).value == p;
      assert next[k] == front[k];
    }
    if ProductOf(row).Some? {
      assert next[i] == row;
      assert ProductOf(row).value in SeenProducts(next);
    }
    forall p | p in SeenProducts(next) ensures p in SeenProducts(front) || ProductOf(row) == Some(p) {
      var k :| 0 <= k < |next| && ProductOf(next[k]).Some? && ProductOf(next[k]).value == p;
      if k < i { assert front[k] == next[k]; }
    }
  }

  lemma OneMoreUnknown(es: seq<Entry<Dish, Extras>>, e: Entry<Dish, Extras>)
    ensures UnknownPrices(es + [e]) == UnknownPrices(es) + if e.row.managed.price.None? then 1 else 0
  {
    assert (es + [e])[..|es|] == es;
  }

  /** What the streaming loop has established before row i. */
  ghost predicate Reached(region: string, rows: seq<MenuRow>, i: nat, seen: set<(string, string)>, counters: Counters, taken: nat)
    requires i <= |rows|
  {
    && ProductIdsNumeric(rows[..i])
    && seen == SeenProducts(rows[..i])
    && CountersFit(counters, region, rows[..i])
    && taken == |SelectedItems(region, rows[..i])|
  }

  lemma PassOver(region: string, rows: seq<MenuRow>, i: nat, seen: set<(string, string)>, counters: Counters, taken: nat)
    requires i < |rows| && Reached(region, rows, i, seen, counters, taken)
    requires rows[i].productId.None? || IsRepeat(rows[..i], rows[i])
    ensures var counters' := if rows[i].productId.None? then counters.(withoutProduct := counters.withoutProduct + 1)
                             else counters.(repeats := counters.repeats + 1);
            Reached(region, rows, i + 1, seen, counters', taken)
  {
    assert rows[..i + 1] == rows[..i] + [rows[i]];
    OneMoreRow(region, rows, i);
  }

  /** The row that is taken comes next in the selection. */
  lemma TakenIsNext(region: string, rows: seq<MenuRow>, i: nat, e: Entry<Dish, Extras>)
    requires i < |rows| && ProductOf(rows[i]).Some? && !IsRepeat(rows[..i], rows[i]) && e == EntryOfRow(region, rows[i])
    ensures SelectedItems(region, rows[..i + 1]) == SelectedItems(region, rows[..i]) + [e]
    ensures |SelectedItems(region, rows[..i])| < |SelectedItems(region, rows)|
    ensures SelectedItems(region, rows)[|SelectedItems(region, rows[..i])|] == e
  {
    OneMoreRow(region, rows, i);
    SelectedGrows(region, rows, i + 1);
    assert SelectedItems(region, rows[..i + 1])[|SelectedItems(region, rows[..i])|] == e;
  }

  /** The counters after an imported row. */
  function CountImported(counters: Counters, row: MenuRow): Counters {
    counters.(imported := counters.imported + 1,
              unknownPrice := counters.unknownPrice + (if NormalizedPrice(row.price).None? then 1 else 0),
              invalidPrice := counters.invalidPrice + (if HasInvalidPrice(row) then 1 else 0))
  }

  lemma TakeOver(region: string, rows: seq<MenuRow>, i: nat, seen: set<(string, string)>, counters: Counters, taken: nat,
                 e: Entry<Dish, Extras>)
    requires i < |rows| && Reached(region, rows, i, seen, counters, taken)
    requires rows[i].productId.Some? && ProductOf(rows[i]).Some? && !IsRepeat(rows[..i], rows[i]) && e == EntryOfRow(region, rows[i])
    ensures Reached(region, rows, i + 1, seen + {ProductOf(rows[i]).value}, CountImported(counters, rows[i]), taken + 1)
  {
    assert rows[..i + 1] == rows[..i] + [rows[i]];
    OneMoreRow(region, rows, i);
    TakenIsNext(region, rows, i, e);
    OneMoreUnknown(SelectedItems(region, rows[..i]), e);
  }

  /** The variables of the streaming loop. */
  datatype Stream = Stream(
    seen: set<(string, string)>, counters: Counters, pending: seq<Entry<Dish, Extras>>, state: Change<Dish, Extras>)

  ghost predicate InStream(t: Table<Dish, Extras>, region: string, rows: seq<MenuRow>, size: nat, i: nat, done: nat, st: Stream)
    requires i <= |rows| && size >= 1
  {
    && Reached(region, rows, i, st.seen, st.counters, done + |st.pending|)
    && Streaming(t, SelectedItems(region, rows), done, st.pending, st.state, size)
    && |st.pending| < size
  }

  lemma PendingGrows(t: Table<Dish, Extras>, all: seq<Entry<Dish, Extras>>, done: nat, pending: seq<Entry<Dish, Extras>>,
                     state: Change<Dish, Extras>, size: nat, e: Entry<Dish, Extras>)
    requires size >= 1 && Streaming(t, all, done, pending, state, size)
    requires done + |pending| < |all| && all[done + |pending|] == e
    ensures Streaming(t, all, done, pending + [e], state, size)
  {
    assert all[done..done + |pending| + 1] == all[done..done + |pending|] + [e];
  }

  /** Add a new item to the pending batch and upsert the batch once it is full. */
  method TakeItem(ghost t: Table<Dish, Extras>, region: string, rows: seq<MenuRow>, size: nat, i: nat, ghost done: nat, st: Stream)
    returns (r: Result<Stream, RowError>, ghost done': nat)
    requires i < |rows| && size >= 1 && InStream(t, region, rows, size, i, done, st)
    requires rows[i].productId.Some? && ProductOf(rows[i]).Some? && !IsRepeat(rows[..i], rows[i])
    ensures r.Err? ==> Batches(t, SelectedItems(region, rows), size).Err?
    ensures r.Ok? ==> InStream(t, region, rows, size, i + 1, done', r.value)
  {
    var product := ProductOf(rows[i]).value;
    var e := ItemEntry(region, product.1, rows[i]);
    TakeOver(region, rows, i, st.seen, st.counters, done + |st.pending|, e);
    TakenIsNext(region, rows, i, e);
    PendingGrows(t, SelectedItems(region, rows), done, st.pending, st.state, size, e);
    ItemsDistinct(region, rows);
    var r1, left;
    r1, left, done' := FlushWhenFull(t, SelectedItems(region, rows), done, st.pending + [e], st.state, size);
    if r1.Err? { return Err(Refused(r1.error)), done; }
    return Ok(Stream(st.seen + {product}, CountImported(st.counters, rows[i]), left, r1.value)), done';
  }

  /** One row of the cursor: skip it, drop it as a repeat, or take it. */
  method TakeRow(ghost t: Table<Dish, Extras>, region: string, rows: seq<MenuRow>, size: nat, i: nat, ghost done: nat, st: Stream)
    returns (r: Result<Stream, RowError>, ghost done': nat)
    requires i < |rows| && size >= 1 && InStream(t, region, rows, size, i, done, st)
    ensures r.Err? ==> !ProductIdsNumeric(rows) || Batches(t, SelectedItems(region, rows), size).Err?
    ensures r.Ok? ==> InStream(t, region, rows, size, i + 1, done', r.value)
  {
    var row := rows[i];
    done' := done;
    if row.productId.None? {
      PassOver(region, rows, i, st.seen, st.counters, done + |st.pending|);
      return Ok(st.(counters := st.counters.(withoutProduct := st.counters.withoutProduct + 1))), done;
    }
    var product := NumericIdentifier(row.productId.value);
    if product.None? { return Err(InvalidIdentifier), done; }
    if (PlaceIdOf(row.placeId), product.value) in st.seen {
      PassOver(region, rows, i, st.seen, st.counters, done + |st.pending|);
      return Ok(st.(counters := st.counters.(repeats := st.counters.repeats + 1))), done;
    }
    r, done' := TakeItem(t, region, rows, size, i, done, st);
  }

  lemma StreamStarts(t: Table<Dish, Extras>, region: string, rows: seq<MenuRow>, size: nat)
    requires size >= 1
    ensures InStream(t, region, rows, size, 0, 0, Stream({}, Counters(0, 0, 0, 0, 0), [], Change(t, {}, {}, Tally(0, 0, 0))))
  {
    assert SelectedItems(region, rows)[0..] == SelectedItems(region, rows);
  }

  lemma StreamEnds(t: Table<Dish, Extras>, region: string, rows: seq<MenuRow>, size: nat, done: nat, st: Stream)
    requires size >= 1 && InStream(t, region, rows, size, |rows|, done, st)
    ensures ProductIdsNumeric(rows) && CountersFit(st.counters, region, rows)
    ensures done + |st.pending| == |SelectedItems(region, rows)|
    ensures st.pending == [] ==>
      Batches(t, SelectedItems(region, rows), size).Ok? && UpTo(t, SelectedItems(region, rows), |SelectedItems(region, rows)|, st.state)
  {
    assert rows[..|rows|] == rows;
  }

  /** Stream the selected menu rows: skip, deduplicate, and upsert whenever a batch is full. */
  method ImportMenuItems(t: Table<Dish, Extras>, region: string, rows: seq<MenuRow>, size: nat)
    returns (r: Result<Change<Dish, Extras>, RowError>, counters: Counters)
    requires size >= 1
    ensures r.Ok? <==> ProductIdsNumeric(rows) && Batches(t, SelectedItems(region, rows), size).Ok?
    ensures r.Ok? ==> UpTo(t, SelectedItems(region, rows), |SelectedItems(region, rows)|, r.value)
    ensures r.Ok? ==> CountersFit(counters, region, rows)
  {
    var st := Stream({}, Counters(0, 0, 0, 0, 0), [], Change(t, {}, {}, Tally(0, 0, 0)));
    ghost var done: nat := 0;
    StreamStarts(t, region, rows, size);
    for i := 0 to |rows|
      invariant InStream(t, region, rows, size, i, done, st)
    {
      var r1;
      r1, done := TakeRow(t, region, rows, size, i, done, st);
      if r1.Err? { return Err(r1.error), st.counters; }
      st := r1.value;
    }
    StreamEnds(t, region, rows, size, done, st);
    counters := st.counters;
    if st.pending == [] { return Ok(st.state), counters; }
    r := FlushLast(t, region, rows, size, done, st);
  }

  /** The last, shorter batch. */
  method FlushLast(ghost t: Table<Dish, Extras>, region: string, rows: seq<MenuRow>, size: nat, ghost done: nat, st: Stream)
    returns (r: Result<Change<Dish, Extras>, RowError>)
    requires size >= 1 && st.pending != [] && |st.pending| < size
    requires Streaming(t, SelectedItems(region, rows), done, st.pending, st.state, size)
    requires done + |st.pending| == |SelectedItems(region, rows)|
    ensures r.Ok? <==> Batches(t, SelectedItems(region, rows), size).Ok?
    ensures r.Ok? ==> UpTo(t, SelectedItems(region, rows), |SelectedItems(region, rows)|, r.value)
  {
    ItemsDistinct(region, rows);
    var r1 := FlushItems(t, SelectedItems(region, rows), done, st.pending, st.state, size);
    if r1.Err? { return Err(Refused(r1.error)); }
    return Ok(r1.value);
  }
}
