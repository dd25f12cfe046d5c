/**
  The order endpoints (backend/routes/orders.py): turning the cart into an
  order, the customer's order history, the admin's order list and status
  change, the invoice data of one order and cancelling a pending order.

  Placing an order takes every unit in the cart out of stock and records the
  unit price of the moment; cancelling a pending order puts the units of its
  items back. Both are modelled as folds of `Db.AdjustStock` over the lines,
  which is exactly what the handlers' loops do, and the two are proved to
  cancel out.
*/
module OrderRoutes {
  import opened Common
  import opened Models
  import opened Db
  import opened CartRoutes

  /** The WHERE clause user_id = u on the orders table. */
  function OfUser(u: int): Order -> bool {
    (o: Order) => o.userId == u
  }

  /** The items of order `o` (the Order.items relationship). */
  function OfOrder(o: int): OrderItem -> bool {
    (i: OrderItem) => i.orderId == o
  }

  // ---------------------------------------------------------------
  // Stock bookkeeping
  // ---------------------------------------------------------------

  /** Units of product `id` across these cart lines. */
  function LineQty(lines: seq<CartLine>, id: int): int {
    if lines == [] then 0
    else LineQty(lines[..|lines| - 1], id) + (if lines[|lines| - 1].productId == id then lines[|lines| - 1].quantity else 0)
  }

  /** Units of product `id` across these order items. */
  function ItemQty(items: seq<OrderItem>, id: int): int {
    if items == [] then 0
    else ItemQty(items[..|items| - 1], id) + (if items[|items| - 1].productId == id then items[|items| - 1].quantity else 0)
  }

  /** The second loop of place_order on the products: each line's units leave the stock. */
  function Destock(ps: seq<Product>, lines: seq<CartLine>): (r: seq<Product>)
    ensures |r| == |ps|
    ensures forall k :: 0 <= k < |ps| ==> r[k] == ps[k].(stock := ps[k].stock - LineQty(lines, ps[k].id))
  {
    if lines == [] then ps
    else
      var l := lines[|lines| - 1];
      AdjustStock(Destock(ps, lines[..|lines| - 1]), l.productId, -l.quantity)
  }

  /** The loop of cancel_order on the products: each item's units go back to the stock. */
  function Restock(ps: seq<Product>, items: seq<OrderItem>): (r: seq<Product>)
    ensures |r| == |ps|
    ensures forall k :: 0 <= k < |ps| ==> r[k] == ps[k].(stock := ps[k].stock + ItemQty(items, ps[k].id))
  {
    if items == [] then ps
    else
      var i := items[|items| - 1];
      AdjustStock(Restock(ps, items[..|items| - 1]), i.productId, i.quantity)
  }

  // ---------------------------------------------------------------
  // POST /api/orders/place
  // ---------------------------------------------------------------

  /** Why the first loop of place_order refuses a line, if it does. */
  function LineProblem(ps: seq<Product>, l: CartLine): Option<string> {
    match FindProduct(ps, l.productId)
    case None => Some("Some product is missing")
    case Some(p) =>
      if l.quantity > p.stock then Some("Only " + IntToString(p.stock) + " left for " + p.name) else None
  }

  /** The refusal of the first line that has a problem, in cart order. */
  function FirstProblem(ps: seq<Product>, lines: seq<CartLine>): (r: Option<string>)
    ensures r.None? <==> forall j :: 0 <= j < |lines| ==> LineProblem(ps, lines[j]).None?
  {
    if lines == [] then None
    else
      assert forall j :: 0 <= j < |lines| - 1 ==> lines[..|lines| - 1][j] == lines[j];
      match FirstProblem(ps, lines[..|lines| - 1])
      case Some(m) => Some(m)
      case None => LineProblem(ps, lines[|lines| - 1])
  }

  /** A problem found in a prefix of the lines is the one reported for all of them. */
  lemma {:induction false} FirstProblemPrefix(ps: seq<Product>, lines: seq<CartLine>, n: nat)
    requires n <= |lines|
    requires FirstProblem(ps, lines[..n]).Some?
    ensures FirstProblem(ps, lines) == FirstProblem(ps, lines[..n])
  {
    if n < |lines| {
      assert lines[..|lines| - 1][..n] == lines[..n];
      FirstProblemPrefix(ps, lines[..|lines| - 1], n);
    } else {
      assert lines[..n] == lines;
    }
  }

  /** The unit price recorded for a product (its current price). */
  function PriceOf(ps: seq<Product>, id: int): int {
    match FindProduct(ps, id)
    case None => 0
    case Some(p) => p.price
  }

  /** `it` is the order item recorded for cart line `l` in order `o`, at the current price. */
  predicate ItemFor(it: OrderItem, l: CartLine, o: int, ps: seq<Product>) {
    it.orderId == o && it.productId == l.productId && it.quantity == l.quantity && it.price == PriceOf(ps, l.productId)
  }

  /** The order item recorded for line `l` after `items`: the next free id, the line's units, the current price. */
  function NextItem(items: seq<OrderItem>, l: CartLine, o: int, ps: seq<Product>): OrderItem {
    OrderItem(FreshKey(items, ItemId), o, l.productId, l.quantity, PriceOf(ps, l.productId))
  }

  /** The items of order `o` for the lines, with consecutive ids from `start`. */
  function NewItems(start: int, lines: seq<CartLine>, o: int, ps: seq<Product>): (r: seq<OrderItem>)
    ensures |r| == |lines|
    ensures forall j :: 0 <= j < |lines| ==> r[j].id == start + j && ItemFor(r[j], lines[j], o, ps)
  {
    seq(|lines|, j requires 0 <= j < |lines| =>
      OrderItem(start + j, o, lines[j].productId, lines[j].quantity, PriceOf(ps, lines[j].productId)))
  }

  /** The order items table after place_order has added one item per line: ids run on from the table's fresh id. */
  function AddItems(items: seq<OrderItem>, lines: seq<CartLine>, o: int, ps: seq<Product>): seq<OrderItem> {
    items + NewItems(FreshKey(items, ItemId), lines, o, ps)
  }

  /** Each item added takes the fresh id of the table so far, so the ids run on consecutively. */
  lemma {:induction false} AddItemsFreshKey(items: seq<OrderItem>, lines: seq<CartLine>, o: int, ps: seq<Product>)
    ensures FreshKey(AddItems(items, lines, o, ps), ItemId) == FreshKey(items, ItemId) + |lines|
  {
    if lines == [] {
      assert AddItems(items, lines, o, ps) == items;
    } else {
      var n := |lines| - 1;
      var pre := AddItems(items, lines[..n], o, ps);
      AddItemsFreshKey(items, lines[..n], o, ps);
      AddItemsStep(items, lines, o, ps);
      FreshKeyAppend(pre, ItemId, NextItem(pre, lines[n], o, ps));
    }
  }

  /** The items for one more line are those for the shorter run plus that line's item. */
  lemma AddItemsStep(items: seq<OrderItem>, lines: seq<CartLine>, o: int, ps: seq<Product>)
    requires lines != []
    requires FreshKey(AddItems(items, lines[..|lines| - 1], o, ps), ItemId) == FreshKey(items, ItemId) + |lines| - 1
    ensures AddItems(items, lines, o, ps) ==
      AddItems(items, lines[..|lines| - 1], o, ps) + [NextItem(AddItems(items, lines[..|lines| - 1], o, ps), lines[|lines| - 1], o, ps)]
  {
    var n := |lines| - 1;
    var start := FreshKey(items, ItemId);
    assert NewItems(start, lines, o, ps) == NewItems(start, lines[..n], o, ps) + [NewItems(start, lines, o, ps)[n]];
  }

  lemma AddItemsAscending(items: seq<OrderItem>, lines: seq<CartLine>, o: int, ps: seq<Product>)
    requires AscendingBy(items, ItemId)
    ensures AscendingBy(AddItems(items, lines, o, ps), ItemId)
  {
    var r := AddItems(items, lines, o, ps);
    var start := FreshKey(items, ItemId);
    forall i, j | 0 <= i < j < |r| ensures ItemId(r[i]) < ItemId(r[j]) {
      if j >= |items| {
        assert r[j].id == start + (j - |items|);
        if i >= |items| {
          assert r[i].id == start + (i - |items|);
        } else {
          assert r[i] == items[i];
        }
      } else {
        assert r[i] == items[i] && r[j] == items[j];
      }
    }
  }

  /** An invoice number already used by an order: the unique column refuses the insert. */
  predicate InvoiceTaken(orders: seq<Order>, invoiceNo: string) {
    exists k :: 0 <= k < |orders| && orders[k].invoiceNo == invoiceNo
  }

  /** What place_order answers on success. */
  datatype Placed = Placed(message: string, orderId: int)

  /** The payment method stored: the body's, or the column default when the body has none. */
  function PaymentOf(paymentMethod: Option<string>): string {
    if paymentMethod.Some? then paymentMethod.value else DefaultPaymentMethod
  }

  /** The order place_order creates: the next id, pending, totalling the lines at current prices. */
  function NewOrder(t: Tables, u: int, lines: seq<CartLine>, billing: Billing, paymentMethod: Option<string>, invoiceNo: string): Order {
    Order(FreshKey(t.orders, OrderId), u, SubtotalSum(Entries(t.products, lines)), DefaultOrderStatus,
          billing, PaymentOf(paymentMethod), invoiceNo)
  }

  /** The tables once place_order has committed `order` with one item per line of user `u`'s cart. */
  function AfterPlace(t: Tables, u: int, lines: seq<CartLine>, order: Order): Tables {
    Tables(t.users, Destock(t.products, lines), Filter(t.carts, NotOwnedBy(u)), t.orders + [order],
           AddItems(t.items, lines, order.id, t.products), t.wishlist, t.offers)
  }

  /**
    The effect of place_order. `billing` and `paymentMethod` are the fields the
    handler reads from the request body (an absent payment method is None);
    `invoiceNo` is the number it derives from the clock and the user id.
  */
  function PlaceOrderOn(t: Tables, u: int, billing: Billing, paymentMethod: Option<string>, invoiceNo: string): (res: (Tables, Reply<Placed>))
    ensures res.1.Err? ==> res.0 == t
    ensures Filter(t.carts, OwnedBy(u)) == [] ==> res.1 == Err(400, "Cart is empty")
    ensures (Filter(t.carts, OwnedBy(u)) != [] && FirstProblem(t.products, Filter(t.carts, OwnedBy(u))).Some?) ==>
      res.1 == Err(400, FirstProblem(t.products, Filter(t.carts, OwnedBy(u))).value)
    ensures (Filter(t.carts, OwnedBy(u)) != [] && FirstProblem(t.products, Filter(t.carts, OwnedBy(u))).None?
      && InvoiceTaken(t.orders, invoiceNo)) ==> res.1 == Err(500, ServerError)
    ensures res.1.Ok? <==>
      Filter(t.carts, OwnedBy(u)) != [] && FirstProblem(t.products, Filter(t.carts, OwnedBy(u))).None?
      && !InvoiceTaken(t.orders, invoiceNo)
    ensures res.1.Ok? ==> res.1 == Ok(201, Placed("Order placed successfully", FreshKey(t.orders, OrderId)))
    ensures res.1.Ok? ==>
      res.0 == AfterPlace(t, u, Filter(t.carts, OwnedBy(u)), NewOrder(t, u, Filter(t.carts, OwnedBy(u)), billing, paymentMethod, invoiceNo))
  {
    var lines := Filter(t.carts, OwnedBy(u));
    if lines == [] then (t, Err(400, "Cart is empty"))
    else match FirstProblem(t.products, lines)
      case Some(m) => (t, Err(400, m))
      case None =>
        if InvoiceTaken(t.orders, invoiceNo) then (t, Err(500, ServerError))
        else
          (AfterPlace(t, u, lines, NewOrder(t, u, lines, billing, paymentMethod, invoiceNo)),
           Ok(201, Placed("Order placed successfully", FreshKey(t.orders, OrderId))))
  }

  /** A non-empty cart whose lines are all within stock, with a fresh invoice number, is turned into an order. */
  lemma PlaceOrderAccepted(t: Tables, u: int, billing: Billing, paymentMethod: Option<string>, invoiceNo: string)
    requires Filter(t.carts, OwnedBy(u)) != []
    requires FirstProblem(t.products, Filter(t.carts, OwnedBy(u))).None?
    requires !InvoiceTaken(t.orders, invoiceNo)
    ensures PlaceOrderOn(t, u, billing, paymentMethod, invoiceNo) ==
      (AfterPlace(t, u, Filter(t.carts, OwnedBy(u)), NewOrder(t, u, Filter(t.carts, OwnedBy(u)), billing, paymentMethod, invoiceNo)),
       Ok(201, Placed("Order placed successfully", FreshKey(t.orders, OrderId))))
  {
  }

  /** What committing an order changes, table by table. */
  lemma PlaceOrderEffect(t: Tables, u: int, lines: seq<CartLine>, order: Order)
    ensures var t' := AfterPlace(t, u, lines, order);
      // the order is appended
      && t'.orders == t.orders + [order]
      // one item per cart line, with ids running on from the table's fresh id, at the price of the moment
      && t'.items[..|t.items|] == t.items
      && |t'.items| == |t.items| + |lines|
      && (forall j :: 0 <= j < |lines| ==>
            t'.items[|t.items| + j].id == FreshKey(t.items, ItemId) + j && ItemFor(t'.items[|t.items| + j], lines[j], order.id, t.products))
      // every product loses the units ordered of it
      && |t'.products| == |t.products|
      && (forall k :: 0 <= k < |t.products| ==>
            t'.products[k] == t.products[k].(stock := t.products[k].stock - LineQty(lines, t.products[k].id)))
      // the user's cart is emptied, other carts stay; nothing else changes
      && (forall l :: l in t'.carts ==> l in t.carts && l.userId != u)
      && (forall l :: l in t.carts && l.userId != u ==> l in t'.carts)
      && t'.users == t.users && t'.wishlist == t.wishlist && t'.offers == t.offers
  {
    var t' := AfterPlace(t, u, lines, order);
    var added := NewItems(FreshKey(t.items, ItemId), lines, order.id, t.products);
    assert t'.items == t.items + added;
    assert t'.items[..|t.items|] == t.items;
    forall j | 0 <= j < |lines|
      ensures t'.items[|t.items| + j].id == FreshKey(t.items, ItemId) + j && ItemFor(t'.items[|t.items| + j], lines[j], order.id, t.products)
    {
      assert t'.items[|t.items| + j] == added[j];
    }
  }

  /** The order placed totals the cart as GET /api/cart shows it, and starts out pending. */
  lemma PlaceOrderRecordsCartTotal(t: Tables, u: int, billing: Billing, paymentMethod: Option<string>, invoiceNo: string)
    requires PlaceOrderOn(t, u, billing, paymentMethod, invoiceNo).1.Ok?
    ensures var t' := PlaceOrderOn(t, u, billing, paymentMethod, invoiceNo).0;
      && |t'.orders| == |t.orders| + 1
      && t'.orders[|t.orders|].id == FreshKey(t.orders, OrderId)
      && t'.orders[|t.orders|].userId == u
      && t'.orders[|t.orders|].totalAmount == SubtotalSum(Entries(t.products, Filter(t.carts, OwnedBy(u))))
      && t'.orders[|t.orders|].status == "Pending"
  {
    var lines := Filter(t.carts, OwnedBy(u));
    var order := NewOrder(t, u, lines, billing, paymentMethod, invoiceNo);
    var t' := PlaceOrderOn(t, u, billing, paymentMethod, invoiceNo).0;
    assert t'.orders == t.orders + [order];
    assert t'.orders[|t.orders|] == order;
  }

  /** A user's cart lines name distinct products (at most one line per pair). */
  lemma UserLinesDistinct(carts: seq<CartLine>, u: int)
    requires CartsValid(carts)
    ensures var lines := Filter(carts, OwnedBy(u));
      forall i, j :: 0 <= i < j < |lines| ==> lines[i].productId != lines[j].productId
  {
    var lines := Filter(carts, OwnedBy(u));
    FilterAscending(carts, OwnedBy(u), LineId);
    forall i, j | 0 <= i < j < |lines| ensures lines[i].productId != lines[j].productId {
      assert lines[i] in lines && lines[j] in lines;
      assert LineId(lines[i]) < LineId(lines[j]);
    }
  }

  /** With distinct products, the units of a product are those of its one line, or none. */
  lemma {:induction false} LineQtyOfDistinct(lines: seq<CartLine>, id: int)
    requires forall i, j :: 0 <= i < j < |lines| ==> lines[i].productId != lines[j].productId
    ensures LineQty(lines, id) == 0 || exists j :: 0 <= j < |lines| && lines[j].productId == id && LineQty(lines, id) == lines[j].quantity
  {
    if lines != [] {
      var init := lines[..|lines| - 1];
      assert forall i :: 0 <= i < |init| ==> init[i] == lines[i];
      LineQtyOfDistinct(init, id);
      if lines[|lines| - 1].productId == id {
        assert LineQty(init, id) == 0;
      }
    }
  }

  /** Taking the units of lines that pass the first loop out of stock leaves no stock negative. */
  lemma DestockNonNegative(ps: seq<Product>, lines: seq<CartLine>)
    requires AscendingBy(ps, ProductId)
    requires forall k :: 0 <= k < |ps| ==> ps[k].stock >= 0
    requires forall i, j :: 0 <= i < j < |lines| ==> lines[i].productId != lines[j].productId
    requires FirstProblem(ps, lines).None?
    ensures forall k :: 0 <= k < |ps| ==> Destock(ps, lines)[k].stock >= 0
  {
    forall k | 0 <= k < |ps| ensures Destock(ps, lines)[k].stock >= 0 {
      var id := ps[k].id;
      LineQtyOfDistinct(lines, id);
      if LineQty(lines, id) != 0 {
        var j :| 0 <= j < |lines| && lines[j].productId == id && LineQty(lines, id) == lines[j].quantity;
        FindProductAt(ps, k);
        assert LineProblem(ps, lines[j]).None?;
      }
    }
  }

  /** Taking a user's whole cart out of stock, once every line is within its stock, leaves no stock negative. */
  lemma CartDestockNonNegative(t: Tables, u: int)
    requires Valid(t)
    requires forall k :: 0 <= k < |t.products| ==> t.products[k].stock >= 0
    requires FirstProblem(t.products, Filter(t.carts, OwnedBy(u))).None?
    ensures forall k :: 0 <= k < |t.products| ==> Destock(t.products, Filter(t.carts, OwnedBy(u)))[k].stock >= 0
  {
    UserLinesDistinct(t.carts, u);
    DestockNonNegative(t.products, Filter(t.carts, OwnedBy(u)));
  }

  /** Placing an order never drives a stock below zero: each product is in the cart once, within its stock. */
  lemma PlaceOrderKeepsStockNonNegative(t: Tables, u: int, billing: Billing, paymentMethod: Option<string>, invoiceNo: string)
    requires Valid(t)
    requires forall k :: 0 <= k < |t.products| ==> t.products[k].stock >= 0
    ensures var t' := PlaceOrderOn(t, u, billing, paymentMethod, invoiceNo).0;
      forall k :: 0 <= k < |t'.products| ==> t'.products[k].stock >= 0
  {
    var res := PlaceOrderOn(t, u, billing, paymentMethod, invoiceNo);
    if res.1.Ok? {
      var lines := Filter(t.carts, OwnedBy(u));
      CartDestockNonNegative(t, u);
      assert res.0.products == Destock(t.products, lines);
    }
  }

  /** The tables after a successful place_order, given the lines, the new order's id and the order itself. */
  lemma PlacedTablesValid(t: Tables, u: int, lines: seq<CartLine>, order: Order)
    requires Valid(t)
    requires order.id == FreshKey(t.orders, OrderId)
    ensures Valid(AfterPlace(t, u, lines, order))
  {
    var o := order.id;
    var ps' := Destock(t.products, lines);
    var orders' := t.orders + [order];
    var items' := AddItems(t.items, lines, o, t.products);
    assert forall k :: 0 <= k < |ps'| ==> ps'[k].id == t.products[k].id;
    assert AscendingBy(ps', ProductId);
    FilterAscending(t.carts, NotOwnedBy(u), LineId);
    AppendAscending(t.orders, OrderId, order);
    AddItemsAscending(t.items, lines, o, t.products);
    assert orders'[|t.orders|] == order;
    assert FreshKey(orders', OrderId) > o;
    FreshKeyLeast(t.orders, OrderId, FreshKey(orders', OrderId));
    forall k | 0 <= k < |items'| ensures items'[k].orderId < FreshKey(orders', OrderId) {
      if k < |t.items| {
        assert items'[k] == t.items[k];
      } else {
        assert items'[k] == NewItems(FreshKey(t.items, ItemId), lines, o, t.products)[k - |t.items|];
      }
    }
  }

  lemma PlaceOrderKeepsValid(t: Tables, u: int, billing: Billing, paymentMethod: Option<string>, invoiceNo: string)
    requires Valid(t)
    ensures Valid(PlaceOrderOn(t, u, billing, paymentMethod, invoiceNo).0)
  {
    var lines := Filter(t.carts, OwnedBy(u));
    PlacedTablesValid(t, u, lines, NewOrder(t, u, lines, billing, paymentMethod, invoiceNo));
  }

  /** The first loop of place_order: the first refusal, or the total of the lines. */
  method CheckCart(ps: seq<Product>, lines: seq<CartLine>) returns (problem: Option<string>, total: int)
    ensures problem == FirstProblem(ps, lines)
    ensures problem.None? ==> total == SubtotalSum(Entries(ps, lines))
  {
    total := 0;
    var i := 0;
    while i < |lines|
      invariant 0 <= i <= |lines|
      invariant FirstProblem(ps, lines[..i]).None?
      invariant total == SubtotalSum(Entries(ps, lines[..i]))
    {
      assert lines[..i + 1][..i] == lines[..i];
      problem := LineProblem(ps, lines[i]);
      if problem.Some? {
        FirstProblemPrefix(ps, lines, i + 1);
        return;
      }
      var product := FindProduct(ps, lines[i].productId).value;
      total := total + product.price * lines[i].quantity;
      i := i + 1;
    }
    assert lines[..|lines|] == lines;
    problem := None;
  }

  /** One more line: that line's units out of stock. */
  lemma DestockStep(ps: seq<Product>, lines: seq<CartLine>, i: nat)
    requires i < |lines|
    ensures AdjustStock(Destock(ps, lines[..i]), lines[i].productId, -lines[i].quantity) == Destock(ps, lines[..i + 1])
  {
    assert lines[..i + 1][..i] == lines[..i];
  }

  /** One more line: one more item, with the next free id. */
  lemma AddItemsNext(items0: seq<OrderItem>, lines: seq<CartLine>, i: nat, o: int, ps: seq<Product>)
    requires i < |lines|
    ensures var items := AddItems(items0, lines[..i], o, ps);
      items + [NextItem(items, lines[i], o, ps)] == AddItems(items0, lines[..i + 1], o, ps)
  {
    assert lines[..i + 1][..i] == lines[..i];
    AddItemsFreshKey(items0, lines[..i], o, ps);
    AddItemsStep(items0, lines[..i + 1], o, ps);
  }

  /**
    The second loop of place_order over the session's copy of the products and
    order items: one item per line for order `o`, and the line's units out of
    stock. The handler commits both tables once, after the loop.
  */
  method TakeStock(ps: seq<Product>, items0: seq<OrderItem>, lines: seq<CartLine>, o: int)
    returns (products: seq<Product>, items: seq<OrderItem>)
    ensures products == Destock(ps, lines)
    ensures items == AddItems(items0, lines, o, ps)
  {
    products, items := ps, items0;
    var i := 0;
    while i < |lines|
      invariant 0 <= i <= |lines|
      invariant items == AddItems(items0, lines[..i], o, ps)
      invariant products == Destock(ps, lines[..i])
    {
      DestockStep(ps, lines, i);
      AddItemsNext(items0, lines, i, o, ps);
      items := items + [NextItem(items, lines[i], o, ps)];
      products := AdjustStock(products, lines[i].productId, -lines[i].quantity);
      i := i + 1;
    }
    assert lines[..|lines|] == lines;
  }

  method PlaceOrder(db: Store, u: int, billing: Billing, paymentMethod: Option<string>, invoiceNo: string) returns (r: Reply<Placed>)
    requires Valid(db.Snapshot())
    modifies db
    ensures (db.Snapshot(), r) == PlaceOrderOn(old(db.Snapshot()), u, billing, paymentMethod, invoiceNo)
    ensures Valid(db.Snapshot())
  {
    ghost var t := db.Snapshot();
    PlaceOrderKeepsValid(t, u, billing, paymentMethod, invoiceNo);
    var lines := Filter(db.carts, OwnedBy(u));
    if lines == [] {
      return Err(400, "Cart is empty");
    }
    var problem, total := CheckCart(db.products, lines);
    if problem.Some? {
      return Err(400, problem.value);
    }
    if InvoiceTaken(db.orders, invoiceNo) {
      return Err(500, ServerError);
    }
    var o := FreshKey(db.orders, OrderId);
    var order := Order(o, u, total, DefaultOrderStatus, billing, PaymentOf(paymentMethod), invoiceNo);
    assert order == NewOrder(t, u, lines, billing, paymentMethod, invoiceNo);
    var products, items := TakeStock(db.products, db.items, lines, o);
    PlaceOrderAccepted(t, u, billing, paymentMethod, invoiceNo);
    db.Commit(Tables(db.users, products, Filter(db.carts, NotOwnedBy(u)), db.orders + [order], items, db.wishlist, db.offers));
    return Ok(201, Placed("Order placed successfully", o));
  }

  // ---------------------------------------------------------------
  // GET /api/orders and GET /api/orders/all
  // ---------------------------------------------------------------

  /** One row of a customer's order history. */
  datatype OrderSummary = OrderSummary(id: int, invoiceNo: string, total: int, status: string)

  function SummaryOf(o: Order): OrderSummary {
    OrderSummary(o.id, o.invoiceNo, o.totalAmount, o.status)
  }

  /** order_history: the user's orders, newest first. */
  function OrderHistoryOn(t: Tables, u: int): (r: seq<OrderSummary>)
    ensures |r| == |Filter(t.orders, OfUser(u))|
  {
    var newest := Reversed(Filter(t.orders, OfUser(u)));
    seq(|newest|, i requires 0 <= i < |newest| => SummaryOf(newest[i]))
  }

  /** The history lists exactly the user's orders. */
  lemma OrderHistoryIsUsersOrders(t: Tables, u: int)
    ensures forall o :: o in t.orders && o.userId == u ==> SummaryOf(o) in OrderHistoryOn(t, u)
    ensures forall s :: s in OrderHistoryOn(t, u) ==> exists o :: o in t.orders && o.userId == u && s == SummaryOf(o)
  {
    var mine := Filter(t.orders, OfUser(u));
    var newest := Reversed(mine);
    var r := OrderHistoryOn(t, u);
    forall o | o in t.orders && o.userId == u ensures SummaryOf(o) in r {
      assert o in mine;
      assert o in newest;
      var i :| 0 <= i < |newest| && newest[i] == o;
      assert r[i] == SummaryOf(o);
    }
    forall s | s in r ensures exists o :: o in t.orders && o.userId == u && s == SummaryOf(o) {
      var i :| 0 <= i < |r| && r[i] == s;
      assert newest[i] in mine;
    }
  }

  /** With orders kept in id order, the history runs from the newest order to the oldest. */
  lemma OrderHistoryNewestFirst(t: Tables, u: int)
    requires AscendingBy(t.orders, OrderId)
    ensures var r := OrderHistoryOn(t, u); forall i, j :: 0 <= i < j < |r| ==> r[i].id > r[j].id
  {
    var mine := Filter(t.orders, OfUser(u));
    FilterAscending(t.orders, OfUser(u), OrderId);
    ReversedDescending(mine, OrderId);
  }

  /** One row of the admin's list of all orders. */
  datatype AdminOrderRow = AdminOrderRow(id: int, invoiceNo: string, userId: int, total: int, status: string)

  function RowOf(o: Order): AdminOrderRow {
    AdminOrderRow(o.id, o.invoiceNo, o.userId, o.totalAmount, o.status)
  }

  /** The rows get_all_orders lists: every order, latest stored first. */
  function AllOrdersOn(orders: seq<Order>): (r: seq<AdminOrderRow>)
    ensures |r| == |orders|
    ensures forall i :: 0 <= i < |orders| ==> r[i] == RowOf(orders[|orders| - 1 - i])
  {
    seq(|orders|, i requires 0 <= i < |orders| => RowOf(orders[|orders| - 1 - i]))
  }

  /** get_all_orders: admins only; every order, newest first. */
  method GetAllOrders(db: Store, u: int) returns (r: Reply<seq<AdminOrderRow>>)
    ensures !IsAdmin(db.users, u) <==> r == Err(403, "Unauthorized")
    ensures r.Ok? ==> r.body == AllOrdersOn(db.orders)
    ensures r.Ok? ==> r.code == 200 && |r.body| == |db.orders|
    ensures r.Ok? ==> forall o :: o in db.orders ==> RowOf(o) in r.body
    ensures r.Ok? && AscendingBy(db.orders, OrderId) ==>
      forall i, j :: 0 <= i < j < |r.body| ==> r.body[i].id > r.body[j].id
  {
    if !IsAdmin(db.users, u) {
      return Err(403, "Unauthorized");
    }
    var orders := Reversed(db.orders);
    var rows := [];
    var i := 0;
    while i < |orders|
      invariant 0 <= i <= |orders|
      invariant |rows| == i
      invariant forall k :: 0 <= k < i ==> rows[k] == RowOf(orders[k])
    {
      rows := rows + [RowOf(orders[i])];
      i := i + 1;
    }
    forall o | o in db.orders ensures RowOf(o) in rows {
      var k :| 0 <= k < |db.orders| && db.orders[k] == o;
      assert rows[|db.orders| - 1 - k] == RowOf(o);
    }
    if AscendingBy(db.orders, OrderId) {
      ReversedDescending(db.orders, OrderId);
      assert forall k :: 0 <= k < |rows| ==> rows[k].id == OrderId(orders[k]);
    }
    return Ok(200, rows);
  }

  // ---------------------------------------------------------------
  // PUT /api/orders/<id>/status
  // ---------------------------------------------------------------

  /** Index of the first order with this id (Order.query.get). */
  function OrderIndex(orders: seq<Order>, id: int): (r: Option<nat>)
    ensures r.Some? ==> r.value < |orders| && orders[r.value].id == id
    ensures r.None? ==> forall k :: 0 <= k < |orders| ==> orders[k].id != id
  {
    if orders == [] then None
    else if orders[0].id == id then Some(0)
    else match OrderIndex(orders[1..], id)
      case None => None
      case Some(k) => Some(k + 1)
  }

  /** The effect of update_order_status; `status` is the body's "status" (None when absent or null). */
  function UpdateOrderStatusOn(t: Tables, u: int, id: int, status: Option<string>): (res: (Tables, Reply<string>))
    ensures res.1.Err? ==> res.0 == t
    ensures !IsAdmin(t.users, u) ==> res.1 == Err(403, "Unauthorized")
    ensures IsAdmin(t.users, u) && OrderIndex(t.orders, id).None? ==> res.1 == Err(404, "Order not found")
    ensures IsAdmin(t.users, u) && OrderIndex(t.orders, id).Some? && (status.None? || status.value == "") ==>
      res.1 == Err(400, "Status is required")
    // any non-empty status is set on an existing order, whatever its current status
    ensures res.1.Ok? <==> IsAdmin(t.users, u) && OrderIndex(t.orders, id).Some? && status.Some? && status.value != ""
    ensures res.1.Ok? ==>
      && status.Some? && status.value != ""
      && res.1 == Ok(200, "Order status updated")
      && var k := OrderIndex(t.orders, id).value;
         res.0 == t.(orders := t.orders[k := t.orders[k].(status := status.value)])
  {
    if !IsAdmin(t.users, u) then (t, Err(403, "Unauthorized"))
    else match OrderIndex(t.orders, id)
      case None => (t, Err(404, "Order not found"))
      case Some(k) =>
        if status.None? || status.value == "" then (t, Err(400, "Status is required"))
        else (t.(orders := t.orders[k := t.orders[k].(status := status.value)]), Ok(200, "Order status updated"))
  }

  /** The orders with every order of this id given the status. */
  function Restatus(os: seq<Order>, id: int, status: string): (r: seq<Order>)
    ensures |r| == |os|
    ensures forall i :: 0 <= i < |os| ==> r[i] == if os[i].id == id then os[i].(status := status) else os[i]
  {
    seq(|os|, i requires 0 <= i < |os| => if os[i].id == id then os[i].(status := status) else os[i])
  }

  /** Ids are unique, so setting the status at an order's index sets it on the one order with that id. */
  lemma RestatusAtIndex(os: seq<Order>, k: nat, status: string)
    requires AscendingBy(os, OrderId) && k < |os|
    ensures os[k := os[k].(status := status)] == Restatus(os, os[k].id, status)
  {
    forall i | 0 <= i < |os| && i != k ensures os[i].id != os[k].id {
      assert OrderId(os[i]) != OrderId(os[k]);
    }
  }

  /** Changing one order's status keeps the orders' ids, so every invariant. */
  lemma SetStatusKeepsValid(t: Tables, k: nat, status: string)
    requires Valid(t) && k < |t.orders|
    ensures Valid(t.(orders := t.orders[k := t.orders[k].(status := status)]))
  {
    var orders' := t.orders[k := t.orders[k].(status := status)];
    assert forall i :: 0 <= i < |orders'| ==> OrderId(orders'[i]) == OrderId(t.orders[i]);
    FreshKeySameKeys(orders', OrderId, t.orders, OrderId);
  }

  method UpdateOrderStatus(db: Store, u: int, id: int, status: Option<string>) returns (r: Reply<string>)
    requires Valid(db.Snapshot())
    modifies db
    ensures (db.Snapshot(), r) == UpdateOrderStatusOn(old(db.Snapshot()), u, id, status)
    ensures Valid(db.Snapshot())
  {
    if !IsAdmin(db.users, u) {
      return Err(403, "Unauthorized");
    }
    var k := OrderIndex(db.orders, id);
    if k.None? {
      return Err(404, "Order not found");
    }
    if status.None? || status.value == "" {
      return Err(400, "Status is required");
    }
    SetStatusKeepsValid(db.Snapshot(), k.value, status.value);
    db.orders := db.orders[k.value := db.orders[k.value].(status := status.value)];
    return Ok(200, "Order status updated");
  }

  // ---------------------------------------------------------------
  // GET /api/orders/<order_id>
  // ---------------------------------------------------------------

  /** Index of the order with this id placed by user `u` (filter_by(id, user_id).first()). */
  function OwnOrderIndex(orders: seq<Order>, id: int, u: int): (r: Option<nat>)
    ensures r.Some? ==> r.value < |orders| && orders[r.value].id == id && orders[r.value].userId == u
    ensures r.Some? ==> forall k :: 0 <= k < r.value ==> !(orders[k].id == id && orders[k].userId == u)
    ensures r.None? ==> forall k :: 0 <= k < |orders| ==> !(orders[k].id == id && orders[k].userId == u)
  {
    if orders == [] then None
    else if orders[0].id == id && orders[0].userId == u then Some(0)
    else match OwnOrderIndex(orders[1..], id, u)
      case None => None
      case Some(k) => Some(k + 1)
  }

  /** One line of the invoice data. */
  datatype InvoiceLine = InvoiceLine(name: string, price: int, quantity: int, subtotal: int)

  /** The invoice data of one order. */
  datatype Invoice = Invoice(
    orderId: int,
    invoiceNo: string,
    total: int,
    status: string,
    customer: Billing,
    paymentMethod: string,
    items: seq<InvoiceLine>)

  /** The invoice line for an item: the product's name while it exists, the recorded price. */
  function InvoiceLineOf(ps: seq<Product>, it: OrderItem): (l: InvoiceLine)
    ensures l.price == it.price && l.quantity == it.quantity && l.subtotal == it.price * it.quantity
    ensures FindProduct(ps, it.productId).Some? ==> l.name == FindProduct(ps, it.productId).value.name
    ensures FindProduct(ps, it.productId).None? ==> l.name == "Deleted Product"
  {
    var name := match FindProduct(ps, it.productId) case None => "Deleted Product" case Some(p) => p.name;
    InvoiceLine(name, it.price, it.quantity, it.price * it.quantity)
  }

  /** get_invoice: the user's own order with its items; someone else's order is "not found". */
  method GetInvoice(db: Store, u: int, id: int) returns (r: Reply<Invoice>)
    ensures OwnOrderIndex(db.orders, id, u).None? <==> r == Err(404, "Order not found")
    ensures OwnOrderIndex(db.orders, id, u).Some? <==> r.Ok?
    ensures r.Ok? ==>
      var o := db.orders[OwnOrderIndex(db.orders, id, u).value];
      var its := Filter(db.items, OfOrder(id));
      && r.code == 200
      && r.body.orderId == o.id && r.body.total == o.totalAmount && r.body.status == o.status
      && r.body.invoiceNo == o.invoiceNo && r.body.customer == o.billing && r.body.paymentMethod == o.paymentMethod
      && |r.body.items| == |its|
      && forall k :: 0 <= k < |its| ==> r.body.items[k] == InvoiceLineOf(db.products, its[k])
  {
    var k := OwnOrderIndex(db.orders, id, u);
    if k.None? {
      return Err(404, "Order not found");
    }
    var o := db.orders[k.value];
    var its := Filter(db.items, OfOrder(id));
    var lines := [];
    var i := 0;
    while i < |its|
      invariant 0 <= i <= |its|
      invariant |lines| == i
      invariant forall j :: 0 <= j < i ==> lines[j] == InvoiceLineOf(db.products, its[j])
    {
      lines := lines + [InvoiceLineOf(db.products, its[i])];
      i := i + 1;
    }
    return Ok(200, Invoice(o.id, o.invoiceNo, o.totalAmount, o.status, o.billing, o.paymentMethod, lines));
  }

  // ---------------------------------------------------------------
  // DELETE /api/orders/<order_id>/cancel
  // ---------------------------------------------------------------

  /** The effect of cancel_order: a pending order of the user becomes "Cancelled" and its units return to stock. */
  function CancelOrderOn(t: Tables, u: int, id: int): (res: (Tables, Reply<string>))
    ensures res.1.Err? ==> res.0 == t
    ensures OwnOrderIndex(t.orders, id, u).None? <==> res.1 == Err(404, "Order not found")
    ensures OwnOrderIndex(t.orders, id, u).Some? && t.orders[OwnOrderIndex(t.orders, id, u).value].status != "Pending" <==>
      res.1 == Err(400, "Only Pending orders can be cancelled")
    ensures res.1.Ok? <==> OwnOrderIndex(t.orders, id, u).Some? && t.orders[OwnOrderIndex(t.orders, id, u).value].status == "Pending"
    ensures res.1.Ok? ==>
      var k := OwnOrderIndex(t.orders, id, u).value;
      && t.orders[k].status == "Pending"
      && res.1 == Ok(200, "Order cancelled successfully")
      && res.0.orders == t.orders[k := t.orders[k].(status := "Cancelled")]
      && |res.0.products| == |t.products|
      && (forall p :: 0 <= p < |t.products| ==>
            res.0.products[p] == t.products[p].(stock := t.products[p].stock + ItemQty(Filter(t.items, OfOrder(id)), t.products[p].id)))
      && res.0 == t.(orders := res.0.orders, products := res.0.products)
  {
    match OwnOrderIndex(t.orders, id, u)
    case None => (t, Err(404, "Order not found"))
    case Some(k) =>
      if t.orders[k].status != "Pending" then (t, Err(400, "Only Pending orders can be cancelled"))
      else
        (t.(orders := t.orders[k := t.orders[k].(status := "Cancelled")],
            products := Restock(t.products, Filter(t.items, OfOrder(id)))),
         Ok(200, "Order cancelled successfully"))
  }

  lemma CancelOrderKeepsValid(t: Tables, u: int, id: int)
    requires Valid(t)
    ensures Valid(CancelOrderOn(t, u, id).0)
  {
    var res := CancelOrderOn(t, u, id);
    if res.1.Ok? {
      var k := OwnOrderIndex(t.orders, id, u).value;
      SetStatusKeepsValid(t, k, "Cancelled");
      assert forall p :: 0 <= p < |res.0.products| ==> res.0.products[p].id == t.products[p].id;
    }
  }

  /** The loop of cancel_order over the session's copy of the products: each item's units go back. */
  method GiveBack(ps: seq<Product>, its: seq<OrderItem>) returns (products: seq<Product>)
    ensures products == Restock(ps, its)
  {
    products := ps;
    var i := 0;
    while i < |its|
      invariant 0 <= i <= |its|
      invariant products == Restock(ps, its[..i])
    {
      assert its[..i + 1][..i] == its[..i];
      products := AdjustStock(products, its[i].productId, its[i].quantity);
      i := i + 1;
    }
    assert its[..|its|] == its;
  }

  method CancelOrder(db: Store, u: int, id: int) returns (r: Reply<string>)
    requires Valid(db.Snapshot())
    modifies db
    ensures (db.Snapshot(), r) == CancelOrderOn(old(db.Snapshot()), u, id)
    ensures Valid(db.Snapshot())
  {
    CancelOrderKeepsValid(db.Snapshot(), u, id);
    var k := OwnOrderIndex(db.orders, id, u);
    if k.None? {
      return Err(404, "Order not found");
    }
    if db.orders[k.value].status != "Pending" {
      return Err(400, "Only Pending orders can be cancelled");
    }
    db.orders := db.orders[k.value := db.orders[k.value].(status := "Cancelled")];
    var products := GiveBack(db.products, Filter(db.items, OfOrder(id)));
    db.products := products;
    return Ok(200, "Order cancelled successfully");
  }

  // ---------------------------------------------------------------
  // Properties across requests
  // ---------------------------------------------------------------

  /** The new items carry, product by product, the units of the lines. */
  lemma {:induction false} NewItemsQty(start: int, lines: seq<CartLine>, o: int, ps: seq<Product>, id: int)
    ensures ItemQty(NewItems(start, lines, o, ps), id) == LineQty(lines, id)
  {
    if lines != [] {
      var n := |lines| - 1;
      assert NewItems(start, lines, o, ps)[..n] == NewItems(start, lines[..n], o, ps);
      NewItemsQty(start, lines[..n], o, ps, id);
    }
  }

  /** The items place_order adds for order `o` are all the items of `o`, so they carry the units of the cart lines. */
  lemma AddItemsQty(items: seq<OrderItem>, lines: seq<CartLine>, o: int, ps: seq<Product>, id: int)
    requires forall k :: 0 <= k < |items| ==> items[k].orderId != o
    ensures ItemQty(Filter(AddItems(items, lines, o, ps), OfOrder(o)), id) == LineQty(lines, id)
  {
    var added := NewItems(FreshKey(items, ItemId), lines, o, ps);
    FilterAppend(items, added, OfOrder(o));
    FilterNone(items, OfOrder(o));
    FilterAll(added, OfOrder(o));
    assert Filter(AddItems(items, lines, o, ps), OfOrder(o)) == added;
    NewItemsQty(FreshKey(items, ItemId), lines, o, ps, id);
  }

  /** Putting back, product by product, the units that were taken gives the original products. */
  lemma RestockUndoesDestock(ps: seq<Product>, lines: seq<CartLine>, its: seq<OrderItem>)
    requires forall k :: 0 <= k < |ps| ==> ItemQty(its, ps[k].id) == LineQty(lines, ps[k].id)
    ensures Restock(Destock(ps, lines), its) == ps
  {
    var r := Restock(Destock(ps, lines), its);
    assert forall k :: 0 <= k < |ps| ==> r[k] == ps[k];
  }

  /** The order just appended with the fresh id is the one user `u`'s request for that id finds. */
  lemma NewOrderFound(orders: seq<Order>, order: Order, u: int)
    requires order.id == FreshKey(orders, OrderId) && order.userId == u
    ensures OwnOrderIndex(orders + [order], order.id, u) == Some(|orders|)
  {
    var all := orders + [order];
    assert all[|orders|] == order;
    assert forall k :: 0 <= k < |orders| ==> all[k].id < order.id;
  }

  /** Cancelling an order right after placing it gives every product its stock back. */
  lemma PlaceThenCancelRestoresStock(t: Tables, u: int, billing: Billing, paymentMethod: Option<string>, invoiceNo: string)
    requires Valid(t)
    requires PlaceOrderOn(t, u, billing, paymentMethod, invoiceNo).1.Ok?
    ensures var placed := PlaceOrderOn(t, u, billing, paymentMethod, invoiceNo);
      var cancelled := CancelOrderOn(placed.0, u, placed.1.body.orderId);
      cancelled.1 == Ok(200, "Order cancelled successfully") && cancelled.0.products == t.products
  {
    var lines := Filter(t.carts, OwnedBy(u));
    var order := NewOrder(t, u, lines, billing, paymentMethod, invoiceNo);
    var o := order.id;
    var t1 := AfterPlace(t, u, lines, order);
    NewOrderFound(t.orders, order, u);
    assert t1.orders[|t.orders|] == order;
    forall p | 0 <= p < |t.products|
      ensures ItemQty(Filter(t1.items, OfOrder(o)), t.products[p].id) == LineQty(lines, t.products[p].id)
    {
      AddItemsQty(t.items, lines, o, t.products, t.products[p].id);
    }
    RestockUndoesDestock(t.products, lines, Filter(t1.items, OfOrder(o)));
  }

  /** A cancelled order cannot be cancelled again, so its units are returned once. */
  lemma CancelTwiceRefused(t: Tables, u: int, id: int)
    requires CancelOrderOn(t, u, id).1.Ok?
    ensures var once := CancelOrderOn(t, u, id).0;
      CancelOrderOn(once, u, id) == (once, Err(400, "Only Pending orders can be cancelled"))
  {
    var k := OwnOrderIndex(t.orders, id, u).value;
    var once := CancelOrderOn(t, u, id).0;
    var j := OwnOrderIndex(once.orders, id, u);
    assert once.orders[k].id == id && once.orders[k].userId == u;
    assert j == Some(k);
  }
}
