/**
 Order-card preparation under interleaving. A call looks its key up, builds the card and commits in three
 separate steps; carts and menus change freely in between, and any number of calls run at once.
 */
module OrderCardRuns {
  import opened Common
  import opened OrderCards
  import opened Billing

  /** A call that found no order, before and after it built its card. */
  datatype Pending = Looked(request: Request) | Built(request: Request, preview: Card)

  datatype Exchange = Exchange(request: Request, answer: Result<Card, CardError>)

  datatype Desk = Desk(
    carts: map<Id, Cart>,
    menu: Menu,
    orders: map<Id, Order>,
    serial: Id,
    pending: set<Pending>,
    exchanges: set<Exchange>)

  datatype Action =
    | ChangeCarts(carts: map<Id, Cart>)
    | ChangeMenu(menu: Menu)
    | LookUp(request: Request)
    | BuildCard(request: Request)
    | CommitCard(request: Request, preview: Card)

  predicate Enabled(s: Desk, a: Action) {
    match a
    case ChangeCarts(_) => true
    case ChangeMenu(_) => true
    case LookUp(request) =>
      request.fingerprint.cartId in s.carts && s.carts[request.fingerprint.cartId] == request.cart
    case BuildCard(request) => Looked(request) in s.pending
    case CommitCard(request, preview) => Built(request, preview) in s.pending
  }

  function Answered(s: Desk, request: Request, answer: Result<Card, CardError>): Desk {
    s.(exchanges := s.exchanges + {Exchange(request, answer)})
  }

  ghost function Next(s: Desk, a: Action): Desk {
    match a
    case ChangeCarts(carts) => s.(carts := carts)
    case ChangeMenu(menu) => s.(menu := menu)
    case LookUp(request) =>
      var existing := Existing(s.orders, request);
      if existing.Some? then Answered(s, request, Replay(s.orders[existing.value], request.fingerprint))
      else s.(pending := s.pending + {Looked(request)})
    case BuildCard(request) =>
      var built := BuildFor(request, s.menu);
      if built.Err? then Answered(s, request, built)
      else s.(pending := s.pending + {Built(request, built.value)})
    case CommitCard(request, preview) =>
      var (orders, answer) := Commit(s.orders, request, preview, s.serial);
      Answered(s.(orders := orders, serial := s.serial + 1), request, answer)
  }

  ghost predicate ValidRun(s: Desk, run: seq<Action>)
    decreases |run|
  {
    run == [] || (Enabled(s, run[0]) && ValidRun(Next(s, run[0]), run[1..]))
  }

  ghost function Exec(s: Desk, run: seq<Action>): Desk
    requires ValidRun(s, run)
    decreases |run|
  {
    if run == [] then s else Exec(Next(s, run[0]), run[1..])
  }

  function Init(carts: map<Id, Cart>, menu: Menu): Desk {
    Desk(carts, menu, map[], 0, {}, {})
  }

  // ------------------------------------------------------------------- the invariant

  lemma BuiltCardFits(request: Request, menu: Menu)
    requires BuildFor(request, menu).Ok?
    ensures CardFits(BuildFor(request, menu).value, request.fingerprint.cartId, request.cart)
  {
    var f := request.fingerprint;
    BuiltCardBills(f.cartId, request.cart, menu, f.expectedVersion, f.expectedRevision);
  }

  /** A success is the stored card of the key, with the fingerprint of the call. */
  ghost predicate AnswerSound(orders: map<Id, Order>, e: Exchange) {
    e.answer.Ok? ==>
      && e.answer.value.orderId.Some?
      && e.answer.value.orderId.value in orders
      && var order := orders[e.answer.value.orderId.value];
      && order.user == e.request.cart.user && order.key == e.request.key
      && order.fingerprint == e.request.fingerprint && order.snapshot == e.answer.value
  }

  ghost predicate OrdersSound(orders: map<Id, Order>, serial: Id) {
    UniqueKeys(orders) && forall id :: id in orders ==> id < serial && OrderBills(orders[id], id)
  }

  ghost predicate PendingSound(pending: set<Pending>) {
    forall p :: p in pending && p.Built? ==> CardFits(p.preview, p.request.fingerprint.cartId, p.request.cart)
  }

  ghost predicate ExchangesSound(orders: map<Id, Order>, exchanges: set<Exchange>) {
    forall e :: e in exchanges ==> AnswerSound(orders, e)
  }

  ghost predicate Sound(s: Desk) {
    OrdersSound(s.orders, s.serial) && PendingSound(s.pending) && ExchangesSound(s.orders, s.exchanges)
  }

  /** Orders are only added. */
  ghost predicate OrdersKept(orders: map<Id, Order>, orders': map<Id, Order>) {
    forall id :: id in orders ==> id in orders' && orders'[id] == orders[id]
  }

  lemma ExchangesStay(orders: map<Id, Order>, orders': map<Id, Order>, exchanges: set<Exchange>)
    requires OrdersKept(orders, orders') && ExchangesSound(orders, exchanges)
    ensures ExchangesSound(orders', exchanges)
  {
    forall e | e in exchanges ensures AnswerSound(orders', e) {
      assert AnswerSound(orders, e);
    }
  }

  lemma ReplaySound(orders: map<Id, Order>, serial: Id, request: Request)
    requires OrdersSound(orders, serial) && Existing(orders, request).Some?
    ensures AnswerSound(orders, Exchange(request, Replay(orders[Existing(orders, request).value], request.fingerprint)))
  {
    assert OrderBills(orders[Existing(orders, request).value], Existing(orders, request).value);
  }

  lemma NewOrderSound(orders: map<Id, Order>, request: Request, preview: Card, id: Id)
    requires OrdersSound(orders, id) && Existing(orders, request).None?
    requires CardFits(preview, request.fingerprint.cartId, request.cart)
    ensures var orders' := orders[id := OrderOf(request, preview, id)];
            && OrdersSound(orders', id + 1) && OrdersKept(orders, orders')
            && AnswerSound(orders', Exchange(request, Ok(preview.(orderId := Some(id)))))
  {
    KeyIsFree(orders, request);
    OrderOfBills(request, preview, id);
  }

  lemma AnswerAdded(orders: map<Id, Order>, exchanges: set<Exchange>, e: Exchange)
    requires ExchangesSound(orders, exchanges) && AnswerSound(orders, e)
    ensures ExchangesSound(orders, exchanges + {e})
  {
  }

  lemma CardAdded(pending: set<Pending>, request: Request, menu: Menu)
    requires PendingSound(pending) && BuildFor(request, menu).Ok?
    ensures PendingSound(pending + {Built(request, BuildFor(request, menu).value)})
  {
    BuiltCardFits(request, menu);
  }

  lemma CommitSound(s: Desk, request: Request, preview: Card)
    requires Sound(s) && Enabled(s, CommitCard(request, preview))
    ensures var s' := Next(s, CommitCard(request, preview)); Sound(s') && OrdersKept(s.orders, s'.orders)
  {
    var existing := Existing(s.orders, request);
    if existing.Some? {
      ReplaySound(s.orders, s.serial, request);
      AnswerAdded(s.orders, s.exchanges, Exchange(request, Replay(s.orders[existing.value], request.fingerprint)));
    } else {
      var orders' := s.orders[s.serial := OrderOf(request, preview, s.serial)];
      NewOrderSound(s.orders, request, preview, s.serial);
      ExchangesStay(s.orders, orders', s.exchanges);
      AnswerAdded(orders', s.exchanges, Exchange(request, Ok(preview.(orderId := Some(s.serial)))));
    }
  }

  lemma StepSound(s: Desk, a: Action)
    requires Sound(s) && Enabled(s, a)
    ensures Sound(Next(s, a)) && OrdersKept(s.orders, Next(s, a).orders)
  {
    match a
    case ChangeCarts(_) =>
    case ChangeMenu(_) =>
    case LookUp(request) =>
      var existing := Existing(s.orders, request);
      if existing.Some? {
        ReplaySound(s.orders, s.serial, request);
        AnswerAdded(s.orders, s.exchanges, Exchange(request, Replay(s.orders[existing.value], request.fingerprint)));
      }
    case BuildCard(request) =>
      var built := BuildFor(request, s.menu);
      if built.Ok? { CardAdded(s.pending, request, s.menu); } else { AnswerAdded(s.orders, s.exchanges, Exchange(request, built)); }
    case CommitCard(request, preview) => CommitSound(s, request, preview);
  }

  lemma {:induction false} RunSound(s: Desk, run: seq<Action>)
    requires Sound(s) && ValidRun(s, run)
    ensures Sound(Exec(s, run)) && OrdersKept(s.orders, Exec(s, run).orders)
    decreases |run|
  {
    if run != [] {
      StepSound(s, run[0]);
      RunSound(Next(s, run[0]), run[1..]);
    }
  }

  // --------------------------------------------------------------------- main results

  /**
   Under one key at most one order exists, and every successful call gets the same card,
   with the same fingerprint, whatever happened to carts and menus in between.
   */
  lemma {:induction false} SuccessesAgree(carts: map<Id, Cart>, menu: Menu, run: seq<Action>, a: Exchange, b: Exchange)
    requires ValidRun(Init(carts, menu), run)
    requires a in Exec(Init(carts, menu), run).exchanges && b in Exec(Init(carts, menu), run).exchanges
    requires a.request.cart.user == b.request.cart.user && a.request.key == b.request.key
    requires a.answer.Ok? && b.answer.Ok?
    ensures a.answer == b.answer && a.request.fingerprint == b.request.fingerprint
  {
    RunSound(Init(carts, menu), run);
    var s := Exec(Init(carts, menu), run);
    assert AnswerSound(s.orders, a) && AnswerSound(s.orders, b);
  }

  lemma {:induction false} OneOrderPerKey(carts: map<Id, Cart>, menu: Menu, run: seq<Action>, a: Id, b: Id)
    requires ValidRun(Init(carts, menu), run)
    requires var orders := Exec(Init(carts, menu), run).orders;
             a in orders && b in orders && orders[a].user == orders[b].user && orders[a].key == orders[b].key
    ensures a == b
  {
    RunSound(Init(carts, menu), run);
  }

  predicate SameKey(a: Request, b: Request) {
    a.cart.user == b.cart.user && a.key == b.key
  }

  /** Once an order exists it stays as it is, and a look-up or a commit under its key is answered from it alone. */
  lemma {:induction false} StoredOrderDecides(s: Desk, run: seq<Action>, id: Id, request: Request, preview: Card)
    requires Sound(s) && ValidRun(s, run) && Occupies(s.orders, id, request)
    ensures var s1 := Exec(s, run);
            var answer := if s.orders[id].fingerprint == request.fingerprint then Ok(s.orders[id].snapshot)
                          else Err(IdempotencyKeyConflict);
            && (forall other :: Occupies(s1.orders, other, request) <==> other == id)
            && id in s1.orders && s1.orders[id] == s.orders[id]
            && Next(s1, LookUp(request)) == Answered(s1, request, answer)
            && Commit(s1.orders, request, preview, s1.serial) == (s1.orders, answer)
  {
    RunSound(s, run);
    var s1 := Exec(s, run);
    assert Occupies(s1.orders, id, request);
    var existing := Existing(s1.orders, request).value;
    assert existing == id;
  }

  /** The answer of a build step that finds the cart out of date, against the menu of that moment. */
  ghost function BuildFailure(s: Desk, a: Action): set<Exchange> {
    if a.BuildCard? && BuildFor(a.request, s.menu).Err? then {Exchange(a.request, BuildFor(a.request, s.menu))} else {}
  }

  ghost function BuildFailures(s: Desk, run: seq<Action>): set<Exchange>
    requires ValidRun(s, run)
    decreases |run|
  {
    if run == [] then {} else BuildFailure(s, run[0]) + BuildFailures(Next(s, run[0]), run[1..])
  }

  /**
   The one way around a stored order: a call that looked its key up before the order was stored fails in its
   build step. Every other call that ends later under the key gets the decision of the order, and a failed
   build never gets it.
   */
  lemma {:induction false} AnswersAfterStored(s: Desk, run: seq<Action>, id: Id, request: Request)
    requires Sound(s) && ValidRun(s, run) && Occupies(s.orders, id, request)
    ensures forall e :: e in Exec(s, run).exchanges && SameKey(e.request, request) ==>
              e in s.exchanges || e in BuildFailures(s, run) || e.answer == Replay(s.orders[id], e.request.fingerprint)
    ensures forall e :: e in BuildFailures(s, run) ==>
              e in Exec(s, run).exchanges && e.answer != Replay(s.orders[id], e.request.fingerprint)
    decreases |run|
  {
    if run != [] {
      var s1 := Next(s, run[0]);
      StepSound(s, run[0]);
      AnswerOfStep(s, run[0], id, request);
      AnswersAfterStored(s1, run[1..], id, request);
      ExchangesGrow(s1, run[1..]);
    }
  }

  lemma AnswerOfStep(s: Desk, a: Action, id: Id, request: Request)
    requires Sound(s) && Enabled(s, a) && Occupies(s.orders, id, request)
    ensures forall e :: e in Next(s, a).exchanges && SameKey(e.request, request) ==>
              e in s.exchanges || e in BuildFailure(s, a) || e.answer == Replay(s.orders[id], e.request.fingerprint)
  {
    if (a.LookUp? || a.CommitCard?) && SameKey(a.request, request) {
      assert Occupies(s.orders, id, a.request);
    }
  }

  lemma {:induction false} ExchangesGrow(s: Desk, run: seq<Action>)
    requires ValidRun(s, run)
    ensures s.exchanges <= Exec(s, run).exchanges
    decreases |run|
  {
    if run != [] {
      ExchangesGrow(Next(s, run[0]), run[1..]);
    }
  }

  /**
   Two equal calls look their key up, the first stores the order, the restaurant disappears, and the
   second one, which is still to build, is told so although the order stands.
   */
  lemma LateBuildCanMissTheOrder(request: Request, menu: Menu)
    requires BuildFor(request, menu).Ok?
    ensures var card := BuildFor(request, menu).value;
            var run := [LookUp(request), BuildCard(request), CommitCard(request, card),
                        ChangeMenu(Menu(map[], map[])), BuildCard(request)];
            var start := Init(map[request.fingerprint.cartId := request.cart], menu);
            && ValidRun(start, run)
            && Occupies(Exec(start, run).orders, 0, request)
            && Exec(start, run).orders[0].fingerprint == request.fingerprint
            && Exchange(request, Err(RestaurantNotFound)) in Exec(start, run).exchanges
  {
    var card := BuildFor(request, menu).value;
    var gone := Menu(map[], map[]);
    var s0 := Init(map[request.fingerprint.cartId := request.cart], menu);
    var s1 := Next(s0, LookUp(request));
    var s2 := Next(s1, BuildCard(request));
    var s3 := Next(s2, CommitCard(request, card));
    var s4 := Next(s3, ChangeMenu(gone));
    var s5 := Next(s4, BuildCard(request));
    assert s3.orders[0] == OrderOf(request, card, 0);
    ChainIsRun(s0, [LookUp(request), BuildCard(request), CommitCard(request, card), ChangeMenu(gone), BuildCard(request)],
               [s0, s1, s2, s3, s4, s5]);
  }

  /** States that follow one another by enabled actions are a run. */
  lemma {:induction false} ChainIsRun(s: Desk, run: seq<Action>, states: seq<Desk>)
    requires |states| == |run| + 1 && states[0] == s
    requires forall i :: 0 <= i < |run| ==> Enabled(states[i], run[i]) && states[i + 1] == Next(states[i], run[i])
    ensures ValidRun(s, run) && Exec(s, run) == states[|run|]
    decreases |run|
  {
    if run != [] {
      ChainIsRun(states[1], run[1..], states[1..]);
    }
  }

  /** Every stored order is a bill: items, lines and amount agree, each line is its price times its quantity, and the amount is their sum. */
  lemma {:induction false} OrdersAddUp(carts: map<Id, Cart>, menu: Menu, run: seq<Action>, id: Id)
    requires ValidRun(Init(carts, menu), run) && id in Exec(Init(carts, menu), run).orders
    ensures OrderBills(Exec(Init(carts, menu), run).orders[id], id)
  {
    RunSound(Init(carts, menu), run);
  }

  /** What a commit stores is the bill of the cart that the call had loaded, whatever became of carts and menus since. */
  lemma {:induction false} CommittedOrderBillsTheCart(carts: map<Id, Cart>, menu: Menu, run: seq<Action>, request: Request, preview: Card)
    requires ValidRun(Init(carts, menu), run) && Enabled(Exec(Init(carts, menu), run), CommitCard(request, preview))
    requires forall id :: !Occupies(Exec(Init(carts, menu), run).orders, id, request)
    ensures var s := Exec(Init(carts, menu), run);
            var s' := Next(s, CommitCard(request, preview));
            && s.serial !in s.orders && s'.orders.Keys == s.orders.Keys + {s.serial}
            && var order := s'.orders[s.serial];
            && OrderBills(order, s.serial) && RowsOf(order.snapshot.lines) == request.cart.rows
            && order.user == request.cart.user && order.restaurant == request.cart.restaurant
            && order.key == request.key && order.fingerprint == request.fingerprint
            && Exchange(request, Ok(order.snapshot)) in s'.exchanges
  {
    RunSound(Init(carts, menu), run);
    OrderOfBills(request, preview, Exec(Init(carts, menu), run).serial);
  }
}
