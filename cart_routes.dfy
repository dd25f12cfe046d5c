/**
  The cart endpoints (backend/routes/cart.py): add a product, read the cart
  with its totals, change a line's quantity, remove a line, empty the cart.

  Each handler is a pure function from the tables before the request to the
  tables after it and the reply; the `method` beside it performs the same
  change on a `Db.Store` in place and is proved to agree with the function.
  The signed-in user's id is a parameter (the handlers read it from the JWT).
*/
module CartRoutes {
  import opened Common
  import opened Models
  import opened Db

  /** The refusal when a quantity exceeds the stock of the product. */
  function StockMessage(stock: int): string {
    "Only " + IntToString(stock) + " items available in stock"
  }

  /** The WHERE clause user_id = u on the carts table. */
  function OwnedBy(u: int): CartLine -> bool {
    (l: CartLine) => l.userId == u
  }

  /** Every line except those of user u. */
  function NotOwnedBy(u: int): CartLine -> bool {
    (l: CartLine) => l.userId != u
  }

  /** Every line except user u's line with this id. */
  function NotLine(id: int, u: int): CartLine -> bool {
    (l: CartLine) => !(l.id == id && l.userId == u)
  }

  // ---------------------------------------------------------------
  // Looking up cart lines
  // ---------------------------------------------------------------

  /** Index of the first line of user `u` for product `p` (filter_by(user_id, product_id).first()). */
  function PairIndex(carts: seq<CartLine>, u: int, p: int): (r: Option<nat>)
    ensures r.Some? ==> r.value < |carts| && carts[r.value].userId == u && carts[r.value].productId == p
    ensures r.Some? ==> forall k :: 0 <= k < r.value ==> !(carts[k].userId == u && carts[k].productId == p)
    ensures r.None? ==> forall k :: 0 <= k < |carts| ==> !(carts[k].userId == u && carts[k].productId == p)
  {
    if carts == [] then None
    else if carts[0].userId == u && carts[0].productId == p then Some(0)
    else match PairIndex(carts[1..], u, p)
      case None => None
      case Some(k) => Some(k + 1)
  }

  /** How many units of product `p` user `u` has in the cart; 0 without a line. */
  function QuantityOf(carts: seq<CartLine>, u: int, p: int): int {
    match PairIndex(carts, u, p)
    case None => 0
    case Some(k) => carts[k].quantity
  }

  /** With at most one line per pair, a line's quantity is what QuantityOf reports for its pair. */
  lemma QuantityOfLine(carts: seq<CartLine>, l: CartLine)
    requires CartPairsUnique(carts)
    requires l in carts
    ensures QuantityOf(carts, l.userId, l.productId) == l.quantity
  {
    var k := PairIndex(carts, l.userId, l.productId);
    var j :| 0 <= j < |carts| && carts[j] == l;
    assert k.Some?;
    assert carts[k.value] in carts;
  }

  /** Index of the line with this id that belongs to user `u` (filter_by(id, user_id).first()). */
  function OwnLineIndex(carts: seq<CartLine>, id: int, u: int): (r: Option<nat>)
    ensures r.Some? ==> r.value < |carts| && carts[r.value].id == id && carts[r.value].userId == u
    ensures r.None? ==> forall k :: 0 <= k < |carts| ==> !(carts[k].id == id && carts[k].userId == u)
  {
    if carts == [] then None
    else if carts[0].id == id && carts[0].userId == u then Some(0)
    else match OwnLineIndex(carts[1..], id, u)
      case None => None
      case Some(k) => Some(k + 1)
  }

  /** Replacing a line by one with the same user and product keeps every pair's first index. */
  lemma {:induction false} PairIndexReplace(carts: seq<CartLine>, k: nat, l: CartLine, u: int, p: int)
    requires k < |carts|
    requires l.userId == carts[k].userId && l.productId == carts[k].productId
    ensures PairIndex(carts[k := l], u, p) == PairIndex(carts, u, p)
  {
    if k > 0 {
      assert carts[k := l][1..] == carts[1..][k - 1 := l];
      PairIndexReplace(carts[1..], k - 1, l, u, p);
    }
  }

  /** Appending a line does not move the first line of any pair already present. */
  lemma {:induction false} PairIndexAppend(carts: seq<CartLine>, l: CartLine, u: int, p: int)
    ensures PairIndex(carts, u, p).Some? ==> PairIndex(carts + [l], u, p) == PairIndex(carts, u, p)
    ensures PairIndex(carts, u, p).None? && l.userId == u && l.productId == p ==>
      PairIndex(carts + [l], u, p) == Some(|carts|)
    ensures PairIndex(carts, u, p).None? && !(l.userId == u && l.productId == p) ==>
      PairIndex(carts + [l], u, p).None?
  {
    if carts != [] {
      assert (carts + [l])[1..] == carts[1..] + [l];
      PairIndexAppend(carts[1..], l, u, p);
    }
  }

  // ---------------------------------------------------------------
  // POST /api/cart/add
  // ---------------------------------------------------------------

  /** The requested quantity: int(data.get("quantity", 1)). */
  function Requested(quantity: Input<int>): int
    requires !quantity.Unparsable?
  {
    if quantity.Value? then quantity.v else DefaultCartQuantity
  }

  /** `not product_id` in Python: absent, null or 0. */
  predicate Falsy(productId: Option<int>) {
    productId.None? || productId.value == 0
  }

  /** The effect of add_to_cart on the tables, and its reply. */
  function AddToCartOn(t: Tables, u: int, productId: Option<int>, quantity: Input<int>): (res: (Tables, Reply<string>))
    // only the carts table can change, and only when the request succeeds
    ensures res.0 == t.(carts := res.0.carts)
    ensures res.1.Err? ==> res.0 == t
    // the refusals, in the order the handler checks them
    ensures quantity.Unparsable? ==> res.1 == Err(500, ServerError)
    ensures !quantity.Unparsable? && Falsy(productId) ==> res.1 == Err(400, "product_id is required")
    ensures !quantity.Unparsable? && !Falsy(productId) && Requested(quantity) <= 0 ==>
      res.1 == Err(400, "Quantity must be greater than 0")
    ensures (!quantity.Unparsable? && !Falsy(productId) && Requested(quantity) > 0
      && FindProduct(t.products, productId.value).None?) ==>
      res.1 == Err(404, "Product not found")
    ensures (!quantity.Unparsable? && !Falsy(productId) && Requested(quantity) > 0
      && FindProduct(t.products, productId.value).Some?
      && QuantityOf(t.carts, u, productId.value) + Requested(quantity) > FindProduct(t.products, productId.value).value.stock) ==>
      res.1 == Err(400, StockMessage(FindProduct(t.products, productId.value).value.stock))
    // an add that passes every check succeeds
    ensures res.1.Ok? <==>
      && !quantity.Unparsable? && !Falsy(productId) && Requested(quantity) > 0
      && FindProduct(t.products, productId.value).Some?
      && QuantityOf(t.carts, u, productId.value) + Requested(quantity) <= FindProduct(t.products, productId.value).value.stock
    // on success the user's quantity of the product grows by the request and stays within stock
    ensures res.1.Ok? ==> res.1 == Ok(201, "Added to cart")
    ensures res.1.Ok? ==>
      && !quantity.Unparsable? && productId.Some?
      && FindProduct(t.products, productId.value).Some?
      && QuantityOf(res.0.carts, u, productId.value) == QuantityOf(t.carts, u, productId.value) + Requested(quantity)
      && QuantityOf(res.0.carts, u, productId.value) <= FindProduct(t.products, productId.value).value.stock
    // no other (user, product) pair changes
    ensures forall v, p :: !(v == u && productId == Some(p)) ==>
      QuantityOf(res.0.carts, v, p) == QuantityOf(t.carts, v, p)
  {
    if quantity.Unparsable? then (t, Err(500, ServerError))
    else
      var q := Requested(quantity);
      if Falsy(productId) then (t, Err(400, "product_id is required"))
      else if q <= 0 then (t, Err(400, "Quantity must be greater than 0"))
      else
        var pid := productId.value;
        match FindProduct(t.products, pid)
        case None => (t, Err(404, "Product not found"))
        case Some(product) =>
          // existing.quantity + quantity for a line already there, the quantity alone otherwise
          if QuantityOf(t.carts, u, pid) + q > product.stock then (t, Err(400, StockMessage(product.stock)))
          else
            AddedCartsQuantities(t.carts, u, pid, q);
            (t.(carts := AddedCarts(t.carts, u, pid, q)), Ok(201, "Added to cart"))
  }

  /** The carts table after a successful add: the pair's line grows by q, or a new line is appended. */
  function AddedCarts(carts: seq<CartLine>, u: int, pid: int, q: int): seq<CartLine> {
    match PairIndex(carts, u, pid)
    case Some(k) => carts[k := carts[k].(quantity := carts[k].quantity + q)]
    case None => carts + [CartLine(FreshKey(carts, LineId), u, pid, q)]
  }

  /** Adding q units of (u, pid) raises that pair's quantity by q and leaves every other pair alone. */
  lemma AddedCartsQuantities(carts: seq<CartLine>, u: int, pid: int, q: int)
    ensures QuantityOf(AddedCarts(carts, u, pid, q), u, pid) == QuantityOf(carts, u, pid) + q
    ensures forall v, p :: !(v == u && pid == p) ==>
      QuantityOf(AddedCarts(carts, u, pid, q), v, p) == QuantityOf(carts, v, p)
  {
    var c' := AddedCarts(carts, u, pid, q);
    match PairIndex(carts, u, pid)
    case Some(k) =>
      forall v, p ensures PairIndex(c', v, p) == PairIndex(carts, v, p) {
        PairIndexReplace(carts, k, carts[k].(quantity := carts[k].quantity + q), v, p);
      }
    case None =>
      var line := CartLine(FreshKey(carts, LineId), u, pid, q);
      forall v, p ensures !(v == u && pid == p) ==> PairIndex(c', v, p) == PairIndex(carts, v, p) {
        PairIndexAppend(carts, line, v, p);
      }
      PairIndexAppend(carts, line, u, pid);
  }

  /** Adding a positive quantity keeps the invariants of the carts table. */
  lemma AddedCartsValid(carts: seq<CartLine>, u: int, pid: int, q: int)
    requires CartsValid(carts) && q >= 1
    ensures CartsValid(AddedCarts(carts, u, pid, q))
  {
    match PairIndex(carts, u, pid)
    case Some(k) =>
      ReplaceLineKeepsCartsValid(carts, k, carts[k].quantity + q);
    case None =>
      AppendLineKeepsCartsValid(carts, CartLine(FreshKey(carts, LineId), u, pid, q));
  }

  /** Changing the quantity of a line to a positive one keeps the invariants of the carts table. */
  lemma ReplaceLineKeepsCartsValid(c: seq<CartLine>, k: nat, quantity: int)
    requires CartsValid(c)
    requires k < |c| && quantity >= 1
    ensures CartsValid(c[k := c[k].(quantity := quantity)])
  {
    var c' := c[k := c[k].(quantity := quantity)];
    assert forall i :: 0 <= i < |c'| ==> c'[i].id == c[i].id;
    ReplaceLineKeepsPairsUnique(c, k, quantity);
    forall x | x in c' ensures x.quantity >= 1 {
      var i :| 0 <= i < |c'| && c'[i] == x;
      assert c[i] in c;
    }
  }

  /** Two positions holding the same user and product are the same position. */
  lemma ReplaceLineKeepsPairsUnique(c: seq<CartLine>, k: nat, quantity: int)
    requires CartsValid(c)
    requires k < |c|
    ensures CartPairsUnique(c[k := c[k].(quantity := quantity)])
  {
    var c' := c[k := c[k].(quantity := quantity)];
    forall x, y | x in c' && y in c' && x.userId == y.userId && x.productId == y.productId
      ensures x == y
    {
      var i :| 0 <= i < |c'| && c'[i] == x;
      var j :| 0 <= j < |c'| && c'[j] == y;
      SameLineIndex(c, i, j);
    }
  }

  lemma SameLineIndex(c: seq<CartLine>, i: nat, j: nat)
    requires CartsValid(c)
    requires i < |c| && j < |c| && c[i].userId == c[j].userId && c[i].productId == c[j].productId
    ensures i == j
  {
    assert c[i] in c && c[j] in c;
    assert c[i] == c[j];
    assert AscendingBy(c, LineId);
  }

  /** Appending a line with a fresh id, a positive quantity and a pair not yet present keeps the invariants. */
  lemma AppendLineKeepsCartsValid(c: seq<CartLine>, l: CartLine)
    requires CartsValid(c)
    requires l.id == FreshKey(c, LineId) && l.quantity >= 1
    requires PairIndex(c, l.userId, l.productId).None?
    ensures CartsValid(c + [l])
  {
    AppendAscending(c, LineId, l);
    forall x | x in c ensures !(x.userId == l.userId && x.productId == l.productId) {
      var i :| 0 <= i < |c| && c[i] == x;
    }
  }

  /** add_to_cart keeps the table invariants: one line per pair, positive quantities, ascending ids. */
  lemma AddToCartKeepsValid(t: Tables, u: int, productId: Option<int>, quantity: Input<int>)
    requires Valid(t)
    ensures Valid(AddToCartOn(t, u, productId, quantity).0)
  {
    var res := AddToCartOn(t, u, productId, quantity);
    AddToCartKeepsCartsValid(t, u, productId, quantity);
    CartsSwapKeepsValid(t, res.0.carts);
  }

  lemma AddToCartKeepsCartsValid(t: Tables, u: int, productId: Option<int>, quantity: Input<int>)
    requires CartsValid(t.carts)
    ensures CartsValid(AddToCartOn(t, u, productId, quantity).0.carts)
  {
    var res := AddToCartOn(t, u, productId, quantity);
    if res.1.Ok? {
      AddedCartsValid(t.carts, u, productId.value, Requested(quantity));
    }
  }

  method AddToCart(db: Store, u: int, productId: Option<int>, quantity: Input<int>) returns (r: Reply<string>)
    requires Valid(db.Snapshot())
    modifies db
    ensures (db.Snapshot(), r) == AddToCartOn(old(db.Snapshot()), u, productId, quantity)
    ensures Valid(db.Snapshot())
  {
    AddToCartKeepsValid(db.Snapshot(), u, productId, quantity);
    if quantity.Unparsable? {
      return Err(500, ServerError);
    }
    var q := Requested(quantity);
    if Falsy(productId) {
      return Err(400, "product_id is required");
    }
    if q <= 0 {
      return Err(400, "Quantity must be greater than 0");
    }
    var pid := productId.value;
    var product := FindProduct(db.products, pid);
    if product.None? {
      return Err(404, "Product not found");
    }
    // existing.quantity + quantity for a line already there, the quantity alone otherwise
    var existing := PairIndex(db.carts, u, pid);
    var newQuantity := if existing.Some? then db.carts[existing.value].quantity + q else q;
    if newQuantity > product.value.stock {
      return Err(400, StockMessage(product.value.stock));
    }
    db.carts := AddedCarts(db.carts, u, pid, q);
    return Ok(201, "Added to cart");
  }

  // ---------------------------------------------------------------
  // GET /api/cart
  // ---------------------------------------------------------------

  /** One item of the cart as get_cart lists it. */
  datatype CartEntry = CartEntry(
    id: int,
    productId: int,
    name: string,
    price: int,
    quantity: int,
    subtotal: int,
    stock: int,
    image: Option<string>)

  /** The item shown for a line, or nothing when its product no longer exists. */
  function EntryOf(ps: seq<Product>, l: CartLine): (e: Option<CartEntry>)
    ensures e.Some? <==> FindProduct(ps, l.productId).Some?
    ensures e.Some? ==> e.value.id == l.id && e.value.quantity == l.quantity
    ensures e.Some? ==> e.value.subtotal == e.value.price * e.value.quantity
    ensures e.Some? ==> e.value.price == FindProduct(ps, l.productId).value.price
  {
    match FindProduct(ps, l.productId)
    case None => None
    case Some(p) => Some(CartEntry(l.id, p.id, p.name, p.price, l.quantity, p.price * l.quantity, p.stock, p.image))
  }

  /** The items listed for these lines, in line order, skipping lines whose product is gone. */
  function Entries(ps: seq<Product>, lines: seq<CartLine>): (v: seq<CartEntry>)
    ensures |v| <= |lines|
  {
    if lines == [] then []
    else
      var init := Entries(ps, lines[..|lines| - 1]);
      match EntryOf(ps, lines[|lines| - 1])
      case None => init
      case Some(e) => init + [e]
  }

  /** Every line whose product exists shows its item, and every item shown comes from a line. */
  lemma {:induction false} EntriesListLines(ps: seq<Product>, lines: seq<CartLine>)
    ensures forall j :: 0 <= j < |lines| && EntryOf(ps, lines[j]).Some? ==>
      EntryOf(ps, lines[j]).value in Entries(ps, lines)
    ensures forall e :: e in Entries(ps, lines) ==>
      exists j :: 0 <= j < |lines| && EntryOf(ps, lines[j]) == Some(e)
  {
    if lines != [] {
      var n := |lines| - 1;
      EntriesListLines(ps, lines[..n]);
      assert forall j :: 0 <= j < n ==> lines[..n][j] == lines[j];
    }
  }

  /** The sum of the subtotals. */
  function SubtotalSum(v: seq<CartEntry>): int {
    if v == [] then 0 else SubtotalSum(v[..|v| - 1]) + v[|v| - 1].subtotal
  }

  /** One more line lists its item, if its product still exists, and adds its subtotal. */
  lemma EntriesStep(ps: seq<Product>, lines: seq<CartLine>, i: nat)
    requires i < |lines|
    ensures var e := EntryOf(ps, lines[i]);
      Entries(ps, lines[..i + 1]) == Entries(ps, lines[..i]) + (if e.Some? then [e.value] else [])
  {
    assert lines[..i + 1][..i] == lines[..i];
  }

  lemma SubtotalSumAppend(v: seq<CartEntry>, e: CartEntry)
    ensures SubtotalSum(v + [e]) == SubtotalSum(v) + e.subtotal
  {
    assert (v + [e])[..|v|] == v;
  }

  /** get_cart: the user's lines in table order with their products, and the sum of the subtotals. */
  method GetCart(db: Store, u: int) returns (entries: seq<CartEntry>, total: int)
    ensures entries == Entries(db.products, Filter(db.carts, OwnedBy(u)))
    ensures total == SubtotalSum(entries)
  {
    entries, total := ListLines(db.products, Filter(db.carts, OwnedBy(u)));
  }

  /** The loop of get_cart over the user's lines: each line with a product adds its item and subtotal. */
  method ListLines(ps: seq<Product>, lines: seq<CartLine>) returns (entries: seq<CartEntry>, total: int)
    ensures entries == Entries(ps, lines)
    ensures total == SubtotalSum(entries)
  {
    entries, total := [], 0;
    var i := 0;
    while i < |lines|
      invariant 0 <= i <= |lines|
      invariant entries == Entries(ps, lines[..i])
      invariant total == SubtotalSum(entries)
    {
      EntriesStep(ps, lines, i);
      var e := EntryOf(ps, lines[i]);
      if e.Some? {
        SubtotalSumAppend(entries, e.value);
        total := total + e.value.subtotal;
        entries := entries + [e.value];
      }
      i := i + 1;
    }
    assert lines[..|lines|] == lines;
  }

  // ---------------------------------------------------------------
  // PUT /api/cart/item/<item_id>
  // ---------------------------------------------------------------

  /** What update_cart_item answers on success. */
  datatype QuantityUpdated = QuantityUpdated(message: string, itemId: int, quantity: int)

  /** The effect of update_cart_item on the tables, and its reply. */
  function UpdateCartItemOn(t: Tables, u: int, itemId: int, quantity: Input<int>): (res: (Tables, Reply<QuantityUpdated>))
    ensures res.0 == t.(carts := res.0.carts)
    ensures res.1.Err? ==> res.0 == t
    ensures quantity.Missing? ==> res.1 == Err(400, "quantity is required")
    ensures quantity.Unparsable? ==> res.1 == Err(400, "Invalid quantity")
    ensures quantity.Value? && quantity.v < 1 ==> res.1 == Err(400, "Quantity must be at least 1")
    ensures quantity.Value? && quantity.v >= 1 && OwnLineIndex(t.carts, itemId, u).None? ==>
      res.1 == Err(404, "Cart item not found")
    ensures (quantity.Value? && quantity.v >= 1 && OwnLineIndex(t.carts, itemId, u).Some?
      && FindProduct(t.products, t.carts[OwnLineIndex(t.carts, itemId, u).value].productId).None?) ==>
      res.1 == Err(404, "Product not found")
    ensures (quantity.Value? && quantity.v >= 1 && OwnLineIndex(t.carts, itemId, u).Some?
      && FindProduct(t.products, t.carts[OwnLineIndex(t.carts, itemId, u).value].productId).Some?
      && quantity.v > FindProduct(t.products, t.carts[OwnLineIndex(t.carts, itemId, u).value].productId).value.stock) ==>
      res.1 == Err(400, StockMessage(FindProduct(t.products, t.carts[OwnLineIndex(t.carts, itemId, u).value].productId).value.stock))
    // an update of one's own line within its product's stock succeeds
    ensures res.1.Ok? <==>
      && quantity.Value? && quantity.v >= 1 && OwnLineIndex(t.carts, itemId, u).Some?
      && FindProduct(t.products, t.carts[OwnLineIndex(t.carts, itemId, u).value].productId).Some?
      && quantity.v <= FindProduct(t.products, t.carts[OwnLineIndex(t.carts, itemId, u).value].productId).value.stock
    // on success exactly the addressed line now holds the requested quantity, within stock
    ensures res.1.Ok? ==>
      && quantity.Value? && res.1 == Ok(200, QuantityUpdated("Quantity updated", itemId, quantity.v))
      && OwnLineIndex(t.carts, itemId, u).Some?
      && var k := OwnLineIndex(t.carts, itemId, u).value;
         && res.0.carts == t.carts[k := t.carts[k].(quantity := quantity.v)]
         && quantity.v <= FindProduct(t.products, t.carts[k].productId).value.stock
  {
    match quantity
    case Missing => (t, Err(400, "quantity is required"))
    case Unparsable => (t, Err(400, "Invalid quantity"))
    case Value(q) =>
      if q < 1 then (t, Err(400, "Quantity must be at least 1"))
      else match OwnLineIndex(t.carts, itemId, u)
        case None => (t, Err(404, "Cart item not found"))
        case Some(k) =>
          match FindProduct(t.products, t.carts[k].productId)
          case None => (t, Err(404, "Product not found"))
          case Some(product) =>
            if q > product.stock then (t, Err(400, StockMessage(product.stock)))
            else (t.(carts := t.carts[k := t.carts[k].(quantity := q)]), Ok(200, QuantityUpdated("Quantity updated", itemId, q)))
  }

  /** After a successful update the user's quantity of that product is the requested one; other pairs keep theirs. */
  lemma UpdateCartItemSetsQuantity(t: Tables, u: int, itemId: int, quantity: Input<int>)
    requires Valid(t)
    requires UpdateCartItemOn(t, u, itemId, quantity).1.Ok?
    ensures var k := OwnLineIndex(t.carts, itemId, u).value;
      var c := UpdateCartItemOn(t, u, itemId, quantity).0.carts;
      && QuantityOf(c, u, t.carts[k].productId) == quantity.v
      && forall v, p :: !(v == u && p == t.carts[k].productId) ==> QuantityOf(c, v, p) == QuantityOf(t.carts, v, p)
  {
    var k := OwnLineIndex(t.carts, itemId, u).value;
    var l := t.carts[k].(quantity := quantity.v);
    forall v, p ensures PairIndex(t.carts[k := l], v, p) == PairIndex(t.carts, v, p) {
      PairIndexReplace(t.carts, k, l, v, p);
    }
    assert t.carts[k] in t.carts;
    QuantityOfLine(t.carts, t.carts[k]);
  }

  lemma UpdateCartItemKeepsValid(t: Tables, u: int, itemId: int, quantity: Input<int>)
    requires Valid(t)
    ensures Valid(UpdateCartItemOn(t, u, itemId, quantity).0)
  {
    if UpdateCartItemOn(t, u, itemId, quantity).1.Ok? {
      ReplaceLineKeepsCartsValid(t.carts, OwnLineIndex(t.carts, itemId, u).value, quantity.v);
    }
  }

  method UpdateCartItem(db: Store, u: int, itemId: int, quantity: Input<int>) returns (r: Reply<QuantityUpdated>)
    requires Valid(db.Snapshot())
    modifies db
    ensures (db.Snapshot(), r) == UpdateCartItemOn(old(db.Snapshot()), u, itemId, quantity)
    ensures Valid(db.Snapshot())
  {
    UpdateCartItemKeepsValid(db.Snapshot(), u, itemId, quantity);
    if quantity.Missing? {
      return Err(400, "quantity is required");
    }
    if quantity.Unparsable? {
      return Err(400, "Invalid quantity");
    }
    var q := quantity.v;
    if q < 1 {
      return Err(400, "Quantity must be at least 1");
    }
    var item := OwnLineIndex(db.carts, itemId, u);
    if item.None? {
      return Err(404, "Cart item not found");
    }
    var k := item.value;
    var product := FindProduct(db.products, db.carts[k].productId);
    if product.None? {
      return Err(404, "Product not found");
    }
    if q > product.value.stock {
      return Err(400, StockMessage(product.value.stock));
    }
    db.carts := db.carts[k := db.carts[k].(quantity := q)];
    return Ok(200, QuantityUpdated("Quantity updated", itemId, q));
  }

  // ---------------------------------------------------------------
  // DELETE /api/cart/remove/<item_id> and /api/cart/clear
  // ---------------------------------------------------------------

  /** The effect of remove_item: the user's line with that id disappears, nothing else does. */
  function RemoveItemOn(t: Tables, u: int, itemId: int): (res: (Tables, Reply<string>))
    ensures res.0 == t.(carts := res.0.carts)
    ensures OwnLineIndex(t.carts, itemId, u).None? <==> res.1 == Err(404, "Item not found")
    ensures OwnLineIndex(t.carts, itemId, u).Some? <==> res.1.Ok?
    ensures res.1.Err? ==> res.0 == t
    ensures res.1.Ok? ==> res.1 == Ok(200, "Item removed")
    ensures res.1.Ok? ==> forall l :: l in res.0.carts <==> l in t.carts && !(l.id == itemId && l.userId == u)
  {
    match OwnLineIndex(t.carts, itemId, u)
    case None => (t, Err(404, "Item not found"))
    case Some(_) => (t.(carts := Filter(t.carts, NotLine(itemId, u))), Ok(200, "Item removed"))
  }

  /** The effect of clear_cart: every line of the user disappears, other users' lines stay. */
  function ClearCartOn(t: Tables, u: int): (res: (Tables, Reply<string>))
    ensures res.0 == t.(carts := res.0.carts)
    ensures res.1 == Ok(200, "Cart cleared")
    ensures forall l :: l in res.0.carts <==> l in t.carts && l.userId != u
  {
    (t.(carts := Filter(t.carts, NotOwnedBy(u))), Ok(200, "Cart cleared"))
  }

  /** Deleting rows keeps the invariants of the carts table. */
  lemma FilterCartsKeepsValid(t: Tables, keep: CartLine -> bool)
    requires Valid(t)
    ensures Valid(t.(carts := Filter(t.carts, keep)))
  {
    FilterAscending(t.carts, keep, LineId);
  }

  /** After clearing, every product's quantity in the user's cart is 0, and other users' carts are untouched. */
  lemma {:induction false} ClearCartEmptiesCart(t: Tables, u: int)
    requires Valid(t)
    ensures forall p :: QuantityOf(ClearCartOn(t, u).0.carts, u, p) == 0
    ensures forall v, p :: v != u ==> QuantityOf(ClearCartOn(t, u).0.carts, v, p) == QuantityOf(t.carts, v, p)
  {
    var c := ClearCartOn(t, u).0.carts;
    FilterCartsKeepsValid(t, NotOwnedBy(u));
    forall v, p ensures v != u ==> QuantityOf(c, v, p) == QuantityOf(t.carts, v, p) {
      var a := PairIndex(c, v, p);
      var b := PairIndex(t.carts, v, p);
      if v != u {
        if b.Some? {
          assert t.carts[b.value] in c;
          QuantityOfLine(c, t.carts[b.value]);
          QuantityOfLine(t.carts, t.carts[b.value]);
        }
      }
    }
    forall p ensures QuantityOf(c, u, p) == 0 {
    }
  }

  method RemoveItem(db: Store, u: int, itemId: int) returns (r: Reply<string>)
    requires Valid(db.Snapshot())
    modifies db
    ensures (db.Snapshot(), r) == RemoveItemOn(old(db.Snapshot()), u, itemId)
    ensures Valid(db.Snapshot())
  {
    var item := OwnLineIndex(db.carts, itemId, u);
    if item.None? {
      return Err(404, "Item not found");
    }
    FilterCartsKeepsValid(db.Snapshot(), NotLine(itemId, u));
    db.carts := Filter(db.carts, NotLine(itemId, u));
    return Ok(200, "Item removed");
  }

  method ClearCart(db: Store, u: int) returns (r: Reply<string>)
    requires Valid(db.Snapshot())
    modifies db
    ensures (db.Snapshot(), r) == ClearCartOn(old(db.Snapshot()), u)
    ensures Valid(db.Snapshot())
  {
    FilterCartsKeepsValid(db.Snapshot(), NotOwnedBy(u));
    db.carts := Filter(db.carts, NotOwnedBy(u));
    return Ok(200, "Cart cleared");
  }
}
