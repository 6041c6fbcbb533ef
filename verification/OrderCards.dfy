/**
 Building an order card from a cart and preparing it under an idempotency key.

 A request reads its cart once; the menu is read when the card is built. Names, phrases, notes and
 currency are left out: the card keeps what identifies it, its lines, its amounts and its request codes.
 */
module OrderCards {
  import opened Common

  type Id = nat

  /** A null price means that the menu does not show one. */
  datatype Row = Row(item: Id, quantity: nat, snapshot: Option<nat>, requests: seq<string>)

  datatype Cart = Cart(user: Id, restaurant: Id, menuRevision: nat, version: nat, rows: seq<Row>)

  datatype Item = Item(price: Option<nat>, available: bool)

  /** Menu revisions by restaurant, and the menu items of all restaurants. */
  datatype Menu = Menu(revisions: map<Id, nat>, items: map<Id, Item>)

  datatype Line = Line(item: Id, quantity: nat, unitPrice: Option<nat>, lineTotal: Option<nat>, requests: seq<string>)

  datatype Card = Card(
    orderId: Option<Id>,
    cartId: Id,
    cartVersion: nat,
    menuRevision: nat,
    restaurant: Id,
    lines: seq<Line>,
    subtotal: Option<nat>,
    kitchenRequests: seq<string>)

  datatype Conflict =
    | Removed(item: Id)
    | Unavailable(item: Id)
    | PriceChanged(item: Id, cartPrice: Option<nat>, currentPrice: Option<nat>)

  datatype CardError =
    | RestaurantNotFound
    | CartVersionConflict(expected: nat, current: nat)
    | MenuRevisionConflict(requested: nat, cart: nat, current: nat)
    | EmptyCart
    | RequiresReview(conflicts: seq<Conflict>)
    | IdempotencyKeyConflict

  /** The structured kitchen requests that have a translation. */
  const KITCHEN_REQUESTS := {"less_spicy", "no_pork", "no_peanuts", "no_dairy"}

  // -------------------------------------------------------------------- reviewing rows

  function ConflictOf(row: Row, menu: Menu): Option<Conflict> {
    if row.item !in menu.items then Some(Removed(row.item))
    else if !menu.items[row.item].available then Some(Unavailable(row.item))
    else if menu.items[row.item].price != row.snapshot then
      Some(PriceChanged(row.item, row.snapshot, menu.items[row.item].price))
    else None
  }

  /** The conflicts of the rows, in cart order. */
  function Conflicts(rows: seq<Row>, menu: Menu): seq<Conflict> {
    if rows == [] then []
    else
      var last := ConflictOf(rows[|rows| - 1], menu);
      Conflicts(rows[..|rows| - 1], menu) + (if last.Some? then [last.value] else [])
  }

  /** The row still stands as the guest saw it. */
  predicate Unchanged(row: Row, menu: Menu) {
    row.item in menu.items && menu.items[row.item].available && menu.items[row.item].price == row.snapshot
  }

  lemma {:induction false} NoConflictMeansUnchanged(rows: seq<Row>, menu: Menu)
    ensures Conflicts(rows, menu) == [] <==> forall i :: 0 <= i < |rows| ==> Unchanged(rows[i], menu)
  {
    if rows != [] {
      NoConflictMeansUnchanged(rows[..|rows| - 1], menu);
      assert rows == rows[..|rows| - 1] + [rows[|rows| - 1]];
    }
  }

  method ReviewRows(rows: seq<Row>, menu: Menu) returns (conflicts: seq<Conflict>)
    ensures conflicts == Conflicts(rows, menu)
  {
    conflicts := [];
    for i := 0 to |rows|
      invariant conflicts == Conflicts(rows[..i], menu)
    {
      assert rows[..i + 1][..i] == rows[..i];
      var row := rows[i];
      if row.item !in menu.items {
        conflicts := conflicts + [Removed(row.item)];
      } else if !menu.items[row.item].available {
        conflicts := conflicts + [Unavailable(row.item)];
      } else if menu.items[row.item].price != row.snapshot {
        conflicts := conflicts + [PriceChanged(row.item, row.snapshot, menu.items[row.item].price)];
      }
    }
    assert rows[..|rows|] == rows;
  }

  // ------------------------------------------------------------------------- amounts

  function LineOf(row: Row, price: Option<nat>): Line {
    Line(row.item, row.quantity, price, if price.Some? then Some(price.value * row.quantity) else None, row.requests)
  }

  /** The card prices each row by the menu. */
  function CardLines(rows: seq<Row>, menu: Menu): (lines: seq<Line>)
    requires forall i :: 0 <= i < |rows| ==> rows[i].item in menu.items
    ensures |lines| == |rows|
  {
    if rows == [] then []
    else
      var last := rows[|rows| - 1];
      CardLines(rows[..|rows| - 1], menu) + [LineOf(last, menu.items[last.item].price)]
  }

  /** The cart view prices each row by its snapshot and skips rows whose item is gone. */
  function CartLines(rows: seq<Row>, menu: Menu): seq<Line> {
    if rows == [] then []
    else
      var last := rows[|rows| - 1];
      CartLines(rows[..|rows| - 1], menu) + (if last.item in menu.items then [LineOf(last, last.snapshot)] else [])
  }

  predicate HasUnknownPrice(lines: seq<Line>) {
    exists i :: 0 <= i < |lines| && lines[i].lineTotal.None?
  }

  function KnownTotal(lines: seq<Line>): nat {
    if lines == [] then 0
    else
      KnownTotal(lines[..|lines| - 1])
      + (if lines[|lines| - 1].lineTotal.Some? then lines[|lines| - 1].lineTotal.value else 0)
  }

  /** One unknown price makes the whole amount unknown. */
  function Subtotal(lines: seq<Line>): Option<nat> {
    if HasUnknownPrice(lines) then None else Some(KnownTotal(lines))
  }

  lemma OneMoreLine(lines: seq<Line>, line: Line)
    ensures KnownTotal(lines + [line]) == KnownTotal(lines) + (if line.lineTotal.Some? then line.lineTotal.value else 0)
    ensures HasUnknownPrice(lines + [line]) <==> HasUnknownPrice(lines) || line.lineTotal.None?
  {
    var more := lines + [line];
    assert more[..|more| - 1] == lines;
    if HasUnknownPrice(lines) {
      var i :| 0 <= i < |lines| && lines[i].lineTotal.None?;
      assert more[i].lineTotal.None?;
    }
    if line.lineTotal.None? { assert more[|lines|].lineTotal.None?; }
  }

  /** The cart view: its lines and its subtotal. */
  method SerializeCart(rows: seq<Row>, menu: Menu) returns (lines: seq<Line>, subtotal: Option<nat>)
    ensures lines == CartLines(rows, menu)
    ensures subtotal == Subtotal(lines)
  {
    lines := [];
    var sum, unknown := 0, false;
    for i := 0 to |rows|
      invariant lines == CartLines(rows[..i], menu)
      invariant sum == KnownTotal(lines) && unknown == HasUnknownPrice(lines)
    {
      assert rows[..i + 1][..i] == rows[..i];
      var row := rows[i];
      if row.item in menu.items {
        var line := LineOf(row, row.snapshot);
        OneMoreLine(lines, line);
        if line.lineTotal.None? { unknown := true; } else { sum := sum + line.lineTotal.value; }
        lines := lines + [line];
      }
    }
    assert rows[..|rows|] == rows;
    subtotal := if unknown then None else Some(sum);
  }

  // --------------------------------------------------------------------- request codes

  /** Append the codes that are not there yet, in order. */
  function AddNew(seen: seq<string>, codes: seq<string>): seq<string> {
    if codes == [] then seen
    else
      var front := AddNew(seen, codes[..|codes| - 1]);
      var last := codes[|codes| - 1];
      if last in front then front else front + [last]
  }

  function Collected(rows: seq<Row>): seq<string> {
    if rows == [] then [] else AddNew(Collected(rows[..|rows| - 1]), rows[|rows| - 1].requests)
  }

  ghost predicate NoRepeats(s: seq<string>) {
    forall i, j :: 0 <= i < j < |s| ==> s[i] != s[j]
  }

  lemma {:induction false} AddNewExact(seen: seq<string>, codes: seq<string>)
    requires NoRepeats(seen)
    ensures NoRepeats(AddNew(seen, codes)) && seen <= AddNew(seen, codes)
    ensures forall code :: code in AddNew(seen, codes) <==> code in seen || code in codes
  {
    if codes != [] {
      AddNewExact(seen, codes[..|codes| - 1]);
      assert codes == codes[..|codes| - 1] + [codes[|codes| - 1]];
    }
  }

  /** All codes of the rows, with repetitions, as a guest would read them off the cart. */
  function AllCodes(rows: seq<Row>): seq<string> {
    if rows == [] then [] else AllCodes(rows[..|rows| - 1]) + rows[|rows| - 1].requests
  }

  /** Collecting row by row is going through all codes once. */
  lemma {:induction false} CollectedFromAll(rows: seq<Row>)
    ensures Collected(rows) == AddNew([], AllCodes(rows))
  {
    if rows != [] {
      CollectedFromAll(rows[..|rows| - 1]);
      AddNewTwice([], AllCodes(rows[..|rows| - 1]), rows[|rows| - 1].requests);
    }
  }

  lemma {:induction false} AddNewTwice(seen: seq<string>, a: seq<string>, b: seq<string>)
    ensures AddNew(seen, a + b) == AddNew(AddNew(seen, a), b)
  {
    if b == [] {
      assert a + b == a;
    } else {
      AddNewTwice(seen, a, b[..|b| - 1]);
      assert (a + b)[..|a + b| - 1] == a + b[..|b| - 1];
    }
  }

  /** The first position of a code. */
  function FirstAt(codes: seq<string>, code: string): (k: nat)
    requires code in codes
    ensures k < |codes| && codes[k] == code && code !in codes[..k]
  {
    if codes[0] == code then 0 else 1 + FirstAt(codes[1..], code)
  }

  lemma FirstAtExtends(codes: seq<string>, more: seq<string>, code: string)
    requires code in codes
    ensures code in codes + more && FirstAt(codes + more, code) == FirstAt(codes, code)
  {
    var k, m := FirstAt(codes, code), FirstAt(codes + more, code);
    assert (codes + more)[k] == code;
    assert forall i :: 0 <= i < m ==> (codes + more)[..m][i] == (codes + more)[i];
    assert forall i :: 0 <= i < k ==> codes[..k][i] == codes[i];
  }

  /** The distinct codes of a sequence, by their first positions. */
  ghost predicate InFirstOrder(distinct: seq<string>, codes: seq<string>) {
    && (forall code :: code in distinct <==> code in codes)
    && (forall i, j :: 0 <= i < j < |distinct| ==> distinct[i] in codes && distinct[j] in codes && FirstAt(codes, distinct[i]) < FirstAt(codes, distinct[j]))
  }

  lemma {:induction false} AddNewInFirstOrder(codes: seq<string>)
    ensures InFirstOrder(AddNew([], codes), codes)
  {
    if codes != [] {
      var front, last := codes[..|codes| - 1], codes[|codes| - 1];
      AddNewInFirstOrder(front);
      var out := AddNew([], front);
      assert codes == front + [last];
      forall code | code in front ensures code in codes && FirstAt(codes, code) == FirstAt(front, code) {
        FirstAtExtends(front, [last], code);
      }
      if last !in front { assert FirstAt(codes, last) == |front|; }
    }
  }

  /** Every code of the cart exactly once, in the order in which the codes first occur, within a row and across rows. */
  lemma CollectedExact(rows: seq<Row>)
    ensures NoRepeats(Collected(rows))
    ensures forall code :: code in Collected(rows) <==> exists i :: 0 <= i < |rows| && code in rows[i].requests
    ensures InFirstOrder(Collected(rows), AllCodes(rows))
  {
    CollectedFromAll(rows);
    AddNewExact([], AllCodes(rows));
    AddNewInFirstOrder(AllCodes(rows));
    AllCodesExact(rows);
  }

  lemma {:induction false} AllCodesExact(rows: seq<Row>)
    ensures forall code :: code in AllCodes(rows) <==> exists i :: 0 <= i < |rows| && code in rows[i].requests
  {
    if rows != [] {
      var front, last := rows[..|rows| - 1], rows[|rows| - 1];
      AllCodesExact(front);
      assert rows == front + [last];
      forall code ensures code in AllCodes(rows) <==> exists i :: 0 <= i < |rows| && code in rows[i].requests {
        if code in AllCodes(front) {
          var i :| 0 <= i < |front| && code in front[i].requests;
          assert code in rows[i].requests;
        }
        if code in last.requests { assert code in rows[|rows| - 1].requests; }
      }
    }
  }

  /** The codes that can be shown to the kitchen, in the same order. */
  function Known(codes: seq<string>): seq<string> {
    if codes == [] then []
    else
      var last := codes[|codes| - 1];
      Known(codes[..|codes| - 1]) + (if last in KITCHEN_REQUESTS then [last] else [])
  }

  // ----------------------------------------------------------------------- the card

  /** An expected revision of zero counts as none. */
  function RequestedRevision(cart: Cart, expectedRevision: Option<nat>): nat {
    if expectedRevision.Some? && expectedRevision.value != 0 then expectedRevision.value else cart.menuRevision
  }

  function Build(cartId: Id, cart: Cart, menu: Menu, expectedVersion: Option<nat>, expectedRevision: Option<nat>)
    : Result<Card, CardError>
  {
    if cart.restaurant !in menu.revisions then Err(RestaurantNotFound)
    else
      var current := menu.revisions[cart.restaurant];
      var requested := RequestedRevision(cart, expectedRevision);
      if expectedVersion.Some? && expectedVersion.value != cart.version then
        Err(CartVersionConflict(expectedVersion.value, cart.version))
      else if requested != cart.menuRevision || cart.menuRevision != current then
        Err(MenuRevisionConflict(requested, cart.menuRevision, current))
      else if cart.rows == [] then Err(EmptyCart)
      else
        var conflicts := Conflicts(cart.rows, menu);
        if conflicts != [] then Err(RequiresReview(conflicts))
        else
          NoConflictMeansUnchanged(cart.rows, menu);
          var lines := CardLines(cart.rows, menu);
          Ok(Card(None, cartId, cart.version, cart.menuRevision, cart.restaurant, lines, Subtotal(lines), Known(Collected(cart.rows))))
  }

  lemma {:induction false} UnchangedLinesAgree(rows: seq<Row>, menu: Menu)
    requires forall i :: 0 <= i < |rows| ==> Unchanged(rows[i], menu)
    requires forall i :: 0 <= i < |rows| ==> rows[i].item in menu.items
    ensures CardLines(rows, menu) == CartLines(rows, menu)
  {
    if rows != [] {
      UnchangedLinesAgree(rows[..|rows| - 1], menu);
    }
  }

  /** The versions that the caller and the cart rely on are the current ones. */
  predicate VersionsAgree(cart: Cart, menu: Menu, expectedVersion: Option<nat>, expectedRevision: Option<nat>) {
    && cart.restaurant in menu.revisions
    && (expectedVersion.Some? ==> expectedVersion.value == cart.version)
    && cart.menuRevision == menu.revisions[cart.restaurant]
    && (expectedRevision.Some? && expectedRevision.value != 0 ==> expectedRevision.value == cart.menuRevision)
  }

  /**
   A card is built exactly when the cart is non-empty, current and unchanged row by row; it then shows
   the lines and the amount that the cart view showed.
   */
  lemma CardShowsTheCart(cartId: Id, cart: Cart, menu: Menu, expectedVersion: Option<nat>, expectedRevision: Option<nat>)
    ensures var r := Build(cartId, cart, menu, expectedVersion, expectedRevision);
            && (r.Ok? <==> && cart.rows != []
                           && VersionsAgree(cart, menu, expectedVersion, expectedRevision)
                           && (forall i :: 0 <= i < |cart.rows| ==> Unchanged(cart.rows[i], menu)))
            && (r.Ok? ==> r.value.lines == CartLines(cart.rows, menu)
                          && r.value.subtotal == Subtotal(CartLines(cart.rows, menu))
                          && |r.value.lines| == |cart.rows|)
  {
    NoConflictMeansUnchanged(cart.rows, menu);
    if forall i :: 0 <= i < |cart.rows| ==> Unchanged(cart.rows[i], menu) {
      assert forall i :: 0 <= i < |cart.rows| ==> Unchanged(cart.rows[i], menu) && cart.rows[i].item in menu.items;
      UnchangedLinesAgree(cart.rows, menu);
    }
  }

  method CollectRequests(rows: seq<Row>) returns (codes: seq<string>)
    ensures codes == Collected(rows)
  {
    codes := [];
    for i := 0 to |rows|
      invariant codes == Collected(rows[..i])
    {
      assert rows[..i + 1][..i] == rows[..i];
      var requests := rows[i].requests;
      ghost var before := codes;
      for j := 0 to |requests|
        invariant codes == AddNew(before, requests[..j])
      {
        assert requests[..j + 1][..j] == requests[..j];
        if requests[j] !in codes {
          codes := codes + [requests[j]];
        }
      }
      assert requests[..|requests|] == requests;
    }
    assert rows[..|rows|] == rows;
  }

  method KnownRequests(codes: seq<string>) returns (known: seq<string>)
    ensures known == Known(codes)
  {
    known := [];
    for i := 0 to |codes|
      invariant known == Known(codes[..i])
    {
      assert codes[..i + 1][..i] == codes[..i];
      if codes[i] in KITCHEN_REQUESTS {
        known := known + [codes[i]];
      }
    }
    assert codes[..|codes|] == codes;
  }

  method PriceRows(rows: seq<Row>, menu: Menu) returns (lines: seq<Line>, subtotal: Option<nat>)
    requires forall i :: 0 <= i < |rows| ==> rows[i].item in menu.items
    ensures lines == CardLines(rows, menu)
    ensures subtotal == Subtotal(lines)
  {
    lines := [];
    var sum, unknown := 0, false;
    for i := 0 to |rows|
      invariant lines == CardLines(rows[..i], menu)
      invariant sum == KnownTotal(lines) && unknown == HasUnknownPrice(lines)
    {
      assert rows[..i + 1][..i] == rows[..i];
      var line := LineOf(rows[i], menu.items[rows[i].item].price);
      OneMoreLine(lines, line);
      if line.lineTotal.None? { unknown := true; } else { sum := sum + line.lineTotal.value; }
      lines := lines + [line];
    }
    assert rows[..|rows|] == rows;
    subtotal := if unknown then None else Some(sum);
  }

  method BuildOrderCard(cartId: Id, cart: Cart, menu: Menu, expectedVersion: Option<nat>, expectedRevision: Option<nat>)
    returns (card: Result<Card, CardError>)
    ensures card == Build(cartId, cart, menu, expectedVersion, expectedRevision)
  {
    if cart.restaurant !in menu.revisions { return Err(RestaurantNotFound); }
    if expectedVersion.Some? && expectedVersion.value != cart.version {
      return Err(CartVersionConflict(expectedVersion.value, cart.version));
    }
    var requested := RequestedRevision(cart, expectedRevision);
    if requested != cart.menuRevision || cart.menuRevision != menu.revisions[cart.restaurant] {
      return Err(MenuRevisionConflict(requested, cart.menuRevision, menu.revisions[cart.restaurant]));
    }
    if cart.rows == [] { return Err(EmptyCart); }
    var conflicts := ReviewRows(cart.rows, menu);
    if conflicts != [] { return Err(RequiresReview(conflicts)); }
    NoConflictMeansUnchanged(cart.rows, menu);
    var lines, subtotal := PriceRows(cart.rows, menu);
    var codes := CollectRequests(cart.rows);
    var known := KnownRequests(codes);
    return Ok(Card(None, cartId, cart.version, cart.menuRevision, cart.restaurant, lines, subtotal, known));
  }

  // ---------------------------------------------------------------------- preparing

  /** What the digest of a prepare request is taken over; the digest is collision-free here. */
  datatype Fingerprint = Fingerprint(cartId: Id, expectedVersion: Option<nat>, expectedRevision: Option<nat>, locale: string)

  datatype OrderItem = OrderItem(item: Id, unitPrice: Option<nat>, quantity: nat)

  datatype Order = Order(
    user: Id,
    restaurant: Id,
    subtotal: Option<nat>,
    key: string,
    fingerprint: Fingerprint,
    snapshot: Card,
    items: seq<OrderItem>)

  /** One prepare call: the cart as it was loaded, and the caller's key. */
  datatype Request = Request(key: string, cart: Cart, fingerprint: Fingerprint)

  predicate Occupies(orders: map<Id, Order>, id: Id, request: Request) {
    id in orders && orders[id].user == request.cart.user && orders[id].key == request.key
  }

  ghost function Existing(orders: map<Id, Order>, request: Request): (r: Option<Id>)
    ensures r.None? <==> forall id :: !Occupies(orders, id, request)
    ensures r.Some? ==> Occupies(orders, r.value, request)
  {
    if id :| Occupies(orders, id, request) then Some(id) else None
  }

  function Replay(order: Order, fingerprint: Fingerprint): Result<Card, CardError> {
    if order.fingerprint != fingerprint then Err(IdempotencyKeyConflict) else Ok(order.snapshot)
  }

  function ItemsOf(lines: seq<Line>): (items: seq<OrderItem>)
    ensures |items| == |lines|
    ensures forall i :: 0 <= i < |lines| ==> items[i] == OrderItem(lines[i].item, lines[i].unitPrice, lines[i].quantity)
  {
    if lines == [] then []
    else
      var last := lines[|lines| - 1];
      ItemsOf(lines[..|lines| - 1]) + [OrderItem(last.item, last.unitPrice, last.quantity)]
  }

  function BuildFor(request: Request, menu: Menu): Result<Card, CardError> {
    Build(request.fingerprint.cartId, request.cart, menu, request.fingerprint.expectedVersion, request.fingerprint.expectedRevision)
  }

  function OrderOf(request: Request, preview: Card, id: Id): Order {
    var prepared := preview.(orderId := Some(id));
    Order(request.cart.user, request.cart.restaurant, preview.subtotal, request.key, request.fingerprint,
          prepared, ItemsOf(prepared.lines))
  }

  /** The commit: on a unique violation the stored order answers. */
  ghost function Commit(orders: map<Id, Order>, request: Request, preview: Card, id: Id): (map<Id, Order>, Result<Card, CardError>) {
    var existing := Existing(orders, request);
    if existing.Some? then (orders, Replay(orders[existing.value], request.fingerprint))
    else (orders[id := OrderOf(request, preview, id)], Ok(preview.(orderId := Some(id))))
  }

  /** UNIQUE (user_id, idempotency_key). */
  ghost predicate UniqueKeys(orders: map<Id, Order>) {
    forall a, b :: a in orders && b in orders && orders[a].user == orders[b].user && orders[a].key == orders[b].key ==> a == b
  }

  /** The orders table with the calls that write it. */
  class OrderBook {
    var orders: map<Id, Order>
    var serial: Id

    constructor ()
      ensures orders == map[] && serial == 0
    {
      orders, serial := map[], 0;
    }

    method FindOrder(request: Request) returns (found: Option<Id>)
      requires UniqueKeys(orders)
      ensures found == Existing(orders, request)
    {
      found := None;
      if id :| id in orders && orders[id].user == request.cart.user && orders[id].key == request.key {
        assert Occupies(orders, id, request);
        found := Some(id);
      } else {
        assert forall id :: !Occupies(orders, id, request);
      }
    }

    /** A whole prepare call with nothing in between its reads and its commit. */
    method Prepare(request: Request, menu: Menu) returns (answer: Result<Card, CardError>)
      requires UniqueKeys(orders) && forall id :: id in orders ==> id < serial
      modifies this
      ensures UniqueKeys(orders) && forall id :: id in orders ==> id < serial
      ensures var existing := Existing(old(orders), request);
              if existing.Some? then
                answer == Replay(old(orders)[existing.value], request.fingerprint) && orders == old(orders)
              else
                var built := BuildFor(request, menu);
                if built.Err? then answer == built && orders == old(orders)
                else (orders, answer) == Commit(old(orders), request, built.value, old(serial))
    {
      var existing := FindOrder(request);
      if existing.Some? {
        return Replay(orders[existing.value], request.fingerprint);
      }
      var preview := BuildOrderCard(request.fingerprint.cartId, request.cart, menu,
                                    request.fingerprint.expectedVersion, request.fingerprint.expectedRevision);
      if preview.Err? { return preview; }
      var id := serial;
      serial := serial + 1;
      answer := InsertOrder(request, preview.value, id);
    }

    /** The insert of a card built earlier, with the rollback and replay of a unique violation. */
    method InsertOrder(request: Request, preview: Card, id: Id) returns (answer: Result<Card, CardError>)
      requires UniqueKeys(orders) && id !in orders
      modifies this`orders
      ensures UniqueKeys(orders)
      ensures (orders, answer) == Commit(old(orders), request, preview, id)
    {
      var raced := FindOrder(request);
      var prepared := preview.(orderId := Some(id));
      var items := [];
      for i := 0 to |prepared.lines|
        invariant items == ItemsOf(prepared.lines[..i])
      {
        assert prepared.lines[..i + 1][..i] == prepared.lines[..i];
        items := items + [OrderItem(prepared.lines[i].item, prepared.lines[i].unitPrice, prepared.lines[i].quantity)];
      }
      assert prepared.lines[..|prepared.lines|] == prepared.lines;
      if raced.Some? {
        return Replay(orders[raced.value], request.fingerprint);
      }
      KeyIsFree(orders, request);
      orders := orders[id := Order(request.cart.user, request.cart.restaurant, preview.subtotal, request.key,
                                   request.fingerprint, prepared, items)];
      return Ok(prepared);
    }
  }

  lemma KeyIsFree(orders: map<Id, Order>, request: Request)
    requires Existing(orders, request).None?
    ensures forall id :: id in orders ==> orders[id].user != request.cart.user || orders[id].key != request.key
  {
    forall id | id in orders ensures orders[id].user != request.cart.user || orders[id].key != request.key {
      assert !Occupies(orders, id, request);
    }
  }
}
