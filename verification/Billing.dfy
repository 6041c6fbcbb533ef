/** What a cart view, an order card and an order say, told from the rows of the cart; and why a card is refused. */
module Billing {
  import opened Common
  import opened OrderCards

  // ------------------------------------------------------------------------ the bill

  /** A line of the bill for a row: its item, quantity and requests, at the price the guest saw, times the quantity. */
  predicate BillsRow(line: Line, row: Row) {
    && line.item == row.item && line.quantity == row.quantity && line.requests == row.requests
    && line.unitPrice == row.snapshot
    && line.lineTotal == match row.snapshot case Some(price) => Some(price * row.quantity) case None => None
  }

  predicate AllPriced(rows: seq<Row>) {
    forall i :: 0 <= i < |rows| ==> rows[i].snapshot.Some?
  }

  /** What the rows cost together. */
  function Cost(rows: seq<Row>): nat
    requires AllPriced(rows)
  {
    if rows == [] then 0
    else Cost(rows[..|rows| - 1]) + rows[|rows| - 1].snapshot.value * rows[|rows| - 1].quantity
  }

  /** One line for each row, and the amount: what the rows cost together, or unknown if a row has no price. */
  predicate Bills(lines: seq<Line>, subtotal: Option<nat>, rows: seq<Row>) {
    && |lines| == |rows|
    && (forall i :: 0 <= i < |rows| ==> BillsRow(lines[i], rows[i]))
    && subtotal == if AllPriced(rows) then Some(Cost(rows)) else None
  }

  lemma OneMoreBilled(lines: seq<Line>, rows: seq<Row>, line: Line, row: Row)
    requires Bills(lines, Subtotal(lines), rows) && BillsRow(line, row)
    ensures Bills(lines + [line], Subtotal(lines + [line]), rows + [row])
  {
    OneMoreLine(lines, line);
    assert (rows + [row])[..|rows|] == rows;
    assert AllPriced(rows + [row]) <==> AllPriced(rows) && row.snapshot.Some? by {
      assert (rows + [row])[|rows|] == row && forall i :: 0 <= i < |rows| ==> (rows + [row])[i] == rows[i];
    }
  }

  /** The rows that the cart view shows: those whose item still exists. */
  function Shown(rows: seq<Row>, menu: Menu): seq<Row> {
    if rows == [] then []
    else
      var last := rows[|rows| - 1];
      Shown(rows[..|rows| - 1], menu) + (if last.item in menu.items then [last] else [])
  }

  /** The cart view is the bill of the rows it shows. */
  lemma {:induction false} CartViewBills(rows: seq<Row>, menu: Menu)
    ensures Bills(CartLines(rows, menu), Subtotal(CartLines(rows, menu)), Shown(rows, menu))
  {
    if rows != [] {
      var front, last := rows[..|rows| - 1], rows[|rows| - 1];
      CartViewBills(front, menu);
      if last.item in menu.items {
        OneMoreBilled(CartLines(front, menu), Shown(front, menu), LineOf(last, last.snapshot), last);
      } else {
        assert CartLines(rows, menu) == CartLines(front, menu) && Shown(rows, menu) == Shown(front, menu);
      }
    }
  }

  lemma {:induction false} AllAreShown(rows: seq<Row>, menu: Menu)
    requires forall i :: 0 <= i < |rows| ==> rows[i].item in menu.items
    ensures Shown(rows, menu) == rows
  {
    if rows != [] {
      AllAreShown(rows[..|rows| - 1], menu);
      assert rows == rows[..|rows| - 1] + [rows[|rows| - 1]];
    }
  }

  /** Of the codes those that the kitchen understands, each once, in the order of their first positions. */
  ghost predicate AsksKitchen(known: seq<string>, codes: seq<string>) {
    && NoRepeats(known)
    && (forall code :: code in known <==> code in codes && code in {"less_spicy", "no_pork", "no_peanuts", "no_dairy"})
    && (forall i, j :: 0 <= i < j < |known| ==>
          known[i] in codes && known[j] in codes && FirstAt(codes, known[i]) < FirstAt(codes, known[j]))
  }

  lemma OneMoreAsked(known: seq<string>, front: seq<string>, last: string)
    requires AsksKitchen(known, front) && last !in front
    ensures AsksKitchen(if last in KITCHEN_REQUESTS then known + [last] else known, front + [last])
  {
    var codes := front + [last];
    forall code | code in front ensures code in codes && FirstAt(codes, code) == FirstAt(front, code) {
      FirstAtExtends(front, [last], code);
    }
    assert codes[|front|] == last && FirstAt(codes, last) == |front|;
  }

  lemma {:induction false} KnownAsksKitchen(codes: seq<string>)
    requires NoRepeats(codes)
    ensures AsksKitchen(Known(codes), codes)
  {
    if codes != [] {
      var front, last := codes[..|codes| - 1], codes[|codes| - 1];
      KnownAsksKitchen(front);
      OneMoreAsked(Known(front), front, last);
      assert codes == front + [last];
      assert Known(codes) == if last in KITCHEN_REQUESTS then Known(front) + [last] else Known(front);
    }
  }

  /** Collecting first does not change what the kitchen is asked. */
  lemma CollectedAsksKitchen(rows: seq<Row>)
    ensures AsksKitchen(Known(Collected(rows)), AllCodes(rows))
  {
    var all, known := Collected(rows), Known(Collected(rows));
    CollectedExact(rows);
    KnownAsksKitchen(all);
    forall i, j | 0 <= i < j < |known|
      ensures known[i] in AllCodes(rows) && known[j] in AllCodes(rows) && FirstAt(AllCodes(rows), known[i]) < FirstAt(AllCodes(rows), known[j])
    {
      var a, b := FirstAt(all, known[i]), FirstAt(all, known[j]);
      assert all[a] == known[i] && all[b] == known[j] && a < b;
    }
  }

  /** The card as a whole: the cart's own data, the bill of all its rows, and what the kitchen is asked. */
  ghost predicate CardFits(card: Card, cartId: Id, cart: Cart) {
    && card.orderId.None? && card.cartId == cartId && card.restaurant == cart.restaurant
    && card.cartVersion == cart.version && card.menuRevision == cart.menuRevision
    && Bills(card.lines, card.subtotal, cart.rows)
    && AsksKitchen(card.kitchenRequests, AllCodes(cart.rows))
  }

  lemma BuiltCardBills(cartId: Id, cart: Cart, menu: Menu, expectedVersion: Option<nat>, expectedRevision: Option<nat>)
    requires Build(cartId, cart, menu, expectedVersion, expectedRevision).Ok?
    ensures CardFits(Build(cartId, cart, menu, expectedVersion, expectedRevision).value, cartId, cart)
  {
    CardShowsTheCart(cartId, cart, menu, expectedVersion, expectedRevision);
    CartViewBills(cart.rows, menu);
    assert forall i :: 0 <= i < |cart.rows| ==> Unchanged(cart.rows[i], menu) && cart.rows[i].item in menu.items;
    AllAreShown(cart.rows, menu);
    CollectedAsksKitchen(cart.rows);
  }

  // ---------------------------------------------------------------------- refusals

  /** What is reported about a row: its item is gone, is sold out, or has another price than the guest saw. */
  predicate Reports(conflict: Conflict, row: Row, menu: Menu) {
    match conflict
    case Removed(item) => item == row.item && item !in menu.items
    case Unavailable(item) => item == row.item && item in menu.items && !menu.items[item].available
    case PriceChanged(item, cartPrice, currentPrice) =>
      && item == row.item && item in menu.items && menu.items[item].available
      && cartPrice == row.snapshot && currentPrice == menu.items[item].price && cartPrice != currentPrice
  }

  predicate IsReported(conflict: Conflict, rows: seq<Row>, menu: Menu) {
    exists i :: 0 <= i < |rows| && Reports(conflict, rows[i], menu)
  }

  /** Exactly what is wrong with the rows is reported. */
  lemma {:induction false} ConflictsExact(rows: seq<Row>, menu: Menu)
    ensures forall conflict :: conflict in Conflicts(rows, menu) <==> IsReported(conflict, rows, menu)
  {
    if rows != [] {
      var front, last := rows[..|rows| - 1], rows[|rows| - 1];
      ConflictsExact(front, menu);
      forall conflict ensures conflict in Conflicts(rows, menu) <==> IsReported(conflict, rows, menu) {
        OneMoreReported(rows, menu, conflict);
      }
    }
  }

  lemma OneMoreReported(rows: seq<Row>, menu: Menu, conflict: Conflict)
    requires rows != []
    requires conflict in Conflicts(rows[..|rows| - 1], menu) <==> IsReported(conflict, rows[..|rows| - 1], menu)
    ensures conflict in Conflicts(rows, menu) <==> IsReported(conflict, rows, menu)
  {
    var front, last := rows[..|rows| - 1], rows[|rows| - 1];
    assert Reports(conflict, last, menu) <==> ConflictOf(last, menu) == Some(conflict);
    if conflict in Conflicts(front, menu) {
      var i :| 0 <= i < |front| && Reports(conflict, front[i], menu);
      assert Reports(conflict, rows[i], menu);
    }
    if IsReported(conflict, rows, menu) {
      var i :| 0 <= i < |rows| && Reports(conflict, rows[i], menu);
      if i < |front| { assert Reports(conflict, front[i], menu); }
    }
    if Reports(conflict, last, menu) { assert Reports(conflict, rows[|rows| - 1], menu); }
  }

  /** Which refusal it is: the first of these that applies. */
  lemma RefusalsInOrder(cartId: Id, cart: Cart, menu: Menu, expectedVersion: Option<nat>, expectedRevision: Option<nat>)
    ensures var r := Build(cartId, cart, menu, expectedVersion, expectedRevision);
            var current := if cart.restaurant in menu.revisions then Some(menu.revisions[cart.restaurant]) else None;
            var requested := match expectedRevision case Some(n) => (if n == 0 then cart.menuRevision else n) case None => cart.menuRevision;
            && (current.None? ==> r == Err(RestaurantNotFound))
            && (current.Some? ==>
                  if expectedVersion.Some? && expectedVersion != Some(cart.version) then
                    r == Err(CartVersionConflict(expectedVersion.value, cart.version))
                  else if requested != cart.menuRevision || current != Some(cart.menuRevision) then
                    r == Err(MenuRevisionConflict(requested, cart.menuRevision, current.value))
                  else if cart.rows == [] then r == Err(EmptyCart)
                  else if exists i :: 0 <= i < |cart.rows| && !Unchanged(cart.rows[i], menu) then
                    r.Err? && r.error.RequiresReview?
                    && (forall conflict :: conflict in r.error.conflicts <==> IsReported(conflict, cart.rows, menu))
                  else r.Ok?)
  {
    NoConflictMeansUnchanged(cart.rows, menu);
    ConflictsExact(cart.rows, menu);
  }

  // ------------------------------------------------------------------------ the order

  /** The cart rows that the lines of a bill stand for. */
  function RowsOf(lines: seq<Line>): (rows: seq<Row>)
    ensures |rows| == |lines|
    ensures forall i :: 0 <= i < |lines| ==>
              rows[i] == Row(lines[i].item, lines[i].quantity, lines[i].unitPrice, lines[i].requests)
  {
    if lines == [] then []
    else
      var last := lines[|lines| - 1];
      RowsOf(lines[..|lines| - 1]) + [Row(last.item, last.quantity, last.unitPrice, last.requests)]
  }

  /** An order repeats its card: one item for each line, and the amount is that of a bill of these lines. */
  predicate OrderBills(order: Order, id: Id) {
    && order.snapshot.orderId == Some(id) && order.restaurant == order.snapshot.restaurant
    && order.subtotal == order.snapshot.subtotal
    && Bills(order.snapshot.lines, order.subtotal, RowsOf(order.snapshot.lines))
    && |order.items| == |order.snapshot.lines|
    && (forall i :: 0 <= i < |order.items| ==>
          order.items[i] == OrderItem(order.snapshot.lines[i].item, order.snapshot.lines[i].unitPrice, order.snapshot.lines[i].quantity))
  }

  lemma BilledRows(lines: seq<Line>, subtotal: Option<nat>, rows: seq<Row>)
    requires Bills(lines, subtotal, rows)
    ensures RowsOf(lines) == rows
  {
    forall i | 0 <= i < |rows| ensures RowsOf(lines)[i] == rows[i] {
      assert BillsRow(lines[i], rows[i]);
    }
  }

  /** An order made from a fitting card bills the rows of its cart. */
  lemma OrderOfBills(request: Request, preview: Card, id: Id)
    requires CardFits(preview, request.fingerprint.cartId, request.cart)
    ensures var order := OrderOf(request, preview, id);
            && OrderBills(order, id) && RowsOf(order.snapshot.lines) == request.cart.rows
            && order.user == request.cart.user && order.key == request.key && order.fingerprint == request.fingerprint
            && order.snapshot == preview.(orderId := Some(id))
  {
    BilledRows(preview.lines, preview.subtotal, request.cart.rows);
  }
}
