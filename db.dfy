/**
  The shop's database: one sequence of rows per table, in rowid order, as
  SQLite returns them for a query without ORDER BY. A new row gets the id
  SQLite gives it, one more than the largest id in the table (1 in an empty
  table), and is appended; deleting rows keeps the others in order. So ids
  stay strictly ascending, which is what makes "ORDER BY id DESC" the
  reverse of the stored order.
*/
module Db {
  import opened Common
  import opened Models

  // ---------------------------------------------------------------
  // Generic table helpers
  // ---------------------------------------------------------------

  /** Ids are positive and strictly ascending in row order (so unique). */
  ghost predicate AscendingBy<R>(t: seq<R>, key: R -> int) {
    && (forall i, j :: 0 <= i < j < |t| ==> key(t[i]) < key(t[j]))
    && (forall i :: 0 <= i < |t| ==> key(t[i]) >= 1)
  }

  /** The rows of `t` that satisfy `keep`, in order (a WHERE clause). */
  function Filter<R>(t: seq<R>, keep: R -> bool): (r: seq<R>)
    ensures |r| <= |t|
    ensures forall x :: x in r ==> x in t && keep(x)
    ensures forall x :: x in t && keep(x) ==> x in r
  {
    if t == [] then [] else (if keep(t[0]) then [t[0]] else []) + Filter(t[1..], keep)
  }

  /** A WHERE clause over a row followed by more rows. */
  lemma FilterCons<R>(x: R, t: seq<R>, keep: R -> bool)
    ensures Filter([x] + t, keep) == (if keep(x) then [x] else []) + Filter(t, keep)
  {
    assert ([x] + t)[1..] == t;
  }

  lemma {:induction false} FilterAscending<R>(t: seq<R>, keep: R -> bool, key: R -> int)
    requires AscendingBy(t, key)
    ensures AscendingBy(Filter(t, keep), key)
  {
    if t != [] {
      FilterAscending(t[1..], keep, key);
      var rest := Filter(t[1..], keep);
      var r := Filter(t, keep);
      if keep(t[0]) {
        assert r == [t[0]] + rest;
        forall i, j | 0 <= i < j < |r| ensures key(r[i]) < key(r[j]) {
          assert r[j] == rest[j - 1] && rest[j - 1] in t[1..];
          if i == 0 {
            var k :| 0 <= k < |t[1..]| && t[1..][k] == rest[j - 1];
            assert t[k + 1] == r[j];
          } else {
            assert r[i] == rest[i - 1];
          }
        }
        forall i | 0 <= i < |r| ensures key(r[i]) >= 1 {
          if i > 0 {
            assert r[i] == rest[i - 1];
          }
        }
      } else {
        assert r == rest;
      }
    }
  }

  /** The largest key in the table, 0 for an empty table. */
  function MaxKey<R>(t: seq<R>, key: R -> int): (m: int)
    ensures forall i :: 0 <= i < |t| ==> key(t[i]) <= m
    ensures t == [] ==> m == 0
    ensures t != [] ==> exists i :: 0 <= i < |t| && key(t[i]) == m
  {
    if t == [] then 0
    else if |t| == 1 then key(t[0])
    else
      var m := MaxKey(t[..|t| - 1], key);
      assert forall i :: 0 <= i < |t| - 1 ==> t[..|t| - 1][i] == t[i];
      if key(t[|t| - 1]) > m then key(t[|t| - 1]) else m
  }

  /** The id SQLite assigns to the next inserted row. */
  function FreshKey<R>(t: seq<R>, key: R -> int): (id: int)
    ensures id >= 1
    ensures forall i :: 0 <= i < |t| ==> key(t[i]) < id
  {
    if t == [] then 1 else if MaxKey(t, key) < 0 then 1 else MaxKey(t, key) + 1
  }

  /** The fresh id is the least positive id above every id in the table. */
  lemma FreshKeyLeast<R>(t: seq<R>, key: R -> int, n: int)
    requires n >= 1
    requires forall i :: 0 <= i < |t| ==> key(t[i]) < n
    ensures FreshKey(t, key) <= n
  {
  }

  /** Appending the row with the fresh id moves the fresh id up by one. */
  lemma FreshKeyAppend<R>(t: seq<R>, key: R -> int, row: R)
    requires key(row) == FreshKey(t, key)
    ensures FreshKey(t + [row], key) == FreshKey(t, key) + 1
  {
    FreshKeyLeast(t + [row], key, FreshKey(t, key) + 1);
    assert (t + [row])[|t|] == row;
  }

  /** Tables whose rows carry the same ids, position by position, hand out the same fresh id. */
  lemma FreshKeySameKeys<R, S>(a: seq<R>, ka: R -> int, b: seq<S>, kb: S -> int)
    requires |a| == |b|
    requires forall i :: 0 <= i < |a| ==> ka(a[i]) == kb(b[i])
    ensures FreshKey(a, ka) == FreshKey(b, kb)
  {
    FreshKeyLeast(a, ka, FreshKey(b, kb));
    FreshKeyLeast(b, kb, FreshKey(a, ka));
  }

  /** A WHERE clause over two runs of rows is the two filtered runs, in order. */
  lemma {:induction false} FilterAppend<R>(a: seq<R>, b: seq<R>, keep: R -> bool)
    ensures Filter(a + b, keep) == Filter(a, keep) + Filter(b, keep)
  {
    if a == [] {
      assert a + b == b;
    } else {
      assert (a + b)[0] == a[0];
      assert (a + b)[1..] == a[1..] + b;
      FilterAppend(a[1..], b, keep);
    }
  }

  /** A WHERE clause no row satisfies selects nothing. */
  lemma {:induction false} FilterNone<R>(t: seq<R>, keep: R -> bool)
    requires forall i :: 0 <= i < |t| ==> !keep(t[i])
    ensures Filter(t, keep) == []
  {
    if t != [] {
      FilterNone(t[1..], keep);
    }
  }

  /** A WHERE clause that drops some row selects fewer rows. */
  lemma {:induction false} FilterShorter<R>(t: seq<R>, keep: R -> bool, k: nat)
    requires k < |t| && !keep(t[k])
    ensures |Filter(t, keep)| < |t|
  {
    if k > 0 {
      FilterShorter(t[1..], keep, k - 1);
    }
  }

  /** A WHERE clause every row satisfies selects the whole table. */
  lemma {:induction false} FilterAll<R>(t: seq<R>, keep: R -> bool)
    requires forall i :: 0 <= i < |t| ==> keep(t[i])
    ensures Filter(t, keep) == t
  {
    if t != [] {
      FilterAll(t[1..], keep);
      assert [t[0]] + t[1..] == t;
    }
  }

  /** Two conditions that agree on every row select the same rows. */
  lemma {:induction false} FilterSame<R>(t: seq<R>, keep: R -> bool, keep': R -> bool)
    requires forall i :: 0 <= i < |t| ==> keep(t[i]) == keep'(t[i])
    ensures Filter(t, keep) == Filter(t, keep')
  {
    if t != [] {
      FilterSame(t[1..], keep, keep');
    }
  }

  /** Two WHERE conditions may be applied in either order. */
  lemma {:induction false} FilterCommute<R>(t: seq<R>, a: R -> bool, b: R -> bool)
    ensures Filter(Filter(t, a), b) == Filter(Filter(t, b), a)
  {
    if t != [] {
      FilterCommute(t[1..], a, b);
      var x := t[0];
      FilterAppend(if a(x) then [x] else [], Filter(t[1..], a), b);
      FilterAppend(if b(x) then [x] else [], Filter(t[1..], b), a);
      assert Filter([x], a) == (if a(x) then [x] else []) + Filter([], a);
      assert Filter([x], b) == (if b(x) then [x] else []) + Filter([], b);
    }
  }

  /** ORDER BY id DESC on a table kept in ascending id order: the rows reversed. */
  function Reversed<R>(t: seq<R>): (r: seq<R>)
    ensures |r| == |t|
    ensures forall i :: 0 <= i < |t| ==> r[i] == t[|t| - 1 - i]
    ensures forall x :: x in r ==> x in t
    ensures forall x :: x in t ==> x in r
  {
    var r := seq(|t|, i requires 0 <= i < |t| => t[|t| - 1 - i]);
    assert forall j :: 0 <= j < |t| ==> r[|t| - 1 - j] == t[j];
    r
  }

  /** Keys strictly decrease along the sequence. */
  ghost predicate DescendingBy<R>(t: seq<R>, key: R -> int) {
    forall i, j :: 0 <= i < j < |t| ==> key(t[i]) > key(t[j])
  }

  lemma ReversedDescending<R>(t: seq<R>, key: R -> int)
    requires AscendingBy(t, key)
    ensures DescendingBy(Reversed(t), key)
  {
    var r := Reversed(t);
    forall i, j | 0 <= i < j < |r| ensures key(r[i]) > key(r[j]) {
      assert r[i] == t[|t| - 1 - i] && r[j] == t[|t| - 1 - j];
    }
  }

  lemma ReversedAppend<R>(a: seq<R>, b: seq<R>)
    ensures Reversed(a + b) == Reversed(b) + Reversed(a)
  {
    var l := Reversed(a + b);
    var r := Reversed(b) + Reversed(a);
    forall i | 0 <= i < |l| ensures l[i] == r[i] {
      if i < |b| {
        assert r[i] == b[|b| - 1 - i];
      } else {
        assert r[i] == Reversed(a)[i - |b|];
      }
    }
  }

  /** A WHERE clause and ORDER BY id DESC can be applied in either order. */
  lemma {:induction false} FilterReversed<R>(t: seq<R>, keep: R -> bool)
    ensures Filter(Reversed(t), keep) == Reversed(Filter(t, keep))
  {
    if t != [] {
      var init, last := t[..|t| - 1], t[|t| - 1];
      var one := Filter([last], keep);
      assert t == init + [last];
      calc {
        Filter(Reversed(t), keep);
        { ReversedAppend(init, [last]); ReversedShort([last]); }
        Filter([last] + Reversed(init), keep);
        { FilterAppend([last], Reversed(init), keep); }
        one + Filter(Reversed(init), keep);
        { FilterReversed(init, keep); }
        one + Reversed(Filter(init, keep));
        { ReversedShort(one); }
        Reversed(one) + Reversed(Filter(init, keep));
        { ReversedAppend(Filter(init, keep), one); }
        Reversed(Filter(init, keep) + one);
        { FilterAppend(init, [last], keep); }
        Reversed(Filter(t, keep));
      }
    }
  }

  /** A sequence of at most one element is its own reverse. */
  lemma ReversedShort<R>(t: seq<R>)
    requires |t| <= 1
    ensures Reversed(t) == t
  {
  }

  lemma AppendAscending<R>(t: seq<R>, key: R -> int, row: R)
    requires AscendingBy(t, key)
    requires key(row) == FreshKey(t, key)
    ensures AscendingBy(t + [row], key)
  {
  }

  // ---------------------------------------------------------------
  // Keys of each table
  // ---------------------------------------------------------------

  function UserId(u: User): int { u.id }
  function ProductId(p: Product): int { p.id }
  function LineId(l: CartLine): int { l.id }
  function OrderId(o: Order): int { o.id }
  function ItemId(i: OrderItem): int { i.id }
  function WishId(w: WishRow): int { w.id }
  function OfferId(o: Offer): int { o.id }

  // ---------------------------------------------------------------
  // Table invariants
  // ---------------------------------------------------------------

  /** At most one cart line per (user, product). */
  ghost predicate CartPairsUnique(carts: seq<CartLine>) {
    forall x, y :: x in carts && y in carts && x.userId == y.userId && x.productId == y.productId ==> x == y
  }

  /** Every cart line holds at least one unit (add needs quantity > 0, update needs >= 1). */
  ghost predicate CartQuantitiesPositive(carts: seq<CartLine>) {
    forall x :: x in carts ==> x.quantity >= 1
  }

  /** The invariants of the carts table. */
  ghost predicate CartsValid(carts: seq<CartLine>) {
    AscendingBy(carts, LineId) && CartPairsUnique(carts) && CartQuantitiesPositive(carts)
  }

  /** At most one wishlist row per (user, product). */
  ghost predicate WishPairsUnique(rows: seq<WishRow>) {
    forall x, y :: x in rows && y in rows && x.userId == y.userId && x.productId == y.productId ==> x == y
  }

  /** User.email is a unique column. */
  ghost predicate EmailsUnique(users: seq<User>) {
    forall x, y :: x in users && y in users && x.email == y.email ==> x == y
  }

  /** Offer.code is a unique column. */
  ghost predicate CodesUnique(offers: seq<Offer>) {
    forall x, y :: x in offers && y in offers && x.code == y.code ==> x == y
  }

  /** Every order item belongs to an existing order (items are only created with their order). */
  ghost predicate ItemsHaveOrders(items: seq<OrderItem>, orders: seq<Order>) {
    forall k :: 0 <= k < |items| ==> items[k].orderId < FreshKey(orders, OrderId)
  }

  ghost predicate Valid(t: Tables) {
    && AscendingBy(t.users, UserId)
    && AscendingBy(t.products, ProductId)
    && AscendingBy(t.orders, OrderId)
    && AscendingBy(t.items, ItemId)
    && AscendingBy(t.wishlist, WishId)
    && AscendingBy(t.offers, OfferId)
    && CartsValid(t.carts)
    && WishPairsUnique(t.wishlist)
    && EmailsUnique(t.users)
    && CodesUnique(t.offers)
    && ItemsHaveOrders(t.items, t.orders)
  }

  /** Replacing only the carts table by a valid one keeps the tables valid. */
  lemma CartsSwapKeepsValid(t: Tables, carts: seq<CartLine>)
    requires Valid(t) && CartsValid(carts)
    ensures Valid(t.(carts := carts))
  {
  }

  // ---------------------------------------------------------------
  // Lookups (Model.query.get(id) and filter_by(...).first())
  // ---------------------------------------------------------------

  /** Index of the first product with this id. */
  function ProductIndex(ps: seq<Product>, id: int): (r: Option<nat>)
    ensures r.Some? ==> r.value < |ps| && ps[r.value].id == id
    ensures r.Some? ==> forall k :: 0 <= k < r.value ==> ps[k].id != id
    ensures r.None? ==> forall k :: 0 <= k < |ps| ==> ps[k].id != id
  {
    if ps == [] then None
    else if ps[0].id == id then Some(0)
    else match ProductIndex(ps[1..], id)
      case None => None
      case Some(k) => Some(k + 1)
  }

  function FindProduct(ps: seq<Product>, id: int): (r: Option<Product>)
    ensures r.Some? <==> exists k :: 0 <= k < |ps| && ps[k].id == id
    ensures r.Some? ==> r.value in ps && r.value.id == id
  {
    match ProductIndex(ps, id)
    case None => None
    case Some(k) => Some(ps[k])
  }

  /** With unique ids, the product found for an id is the one holding it. */
  lemma FindProductAt(ps: seq<Product>, k: nat)
    requires AscendingBy(ps, ProductId)
    requires k < |ps|
    ensures FindProduct(ps, ps[k].id) == Some(ps[k])
  {
    var i := ProductIndex(ps, ps[k].id);
  }

  function FindUser(us: seq<User>, id: int): (r: Option<User>)
    ensures r.Some? ==> r.value in us && r.value.id == id
    ensures r.None? ==> forall k :: 0 <= k < |us| ==> us[k].id != id
  {
    if us == [] then None
    else if us[0].id == id then Some(us[0])
    else FindUser(us[1..], id)
  }

  /** The caller is an existing user whose role is "admin". */
  predicate IsAdmin(us: seq<User>, id: int) {
    var u := FindUser(us, id);
    u.Some? && u.value.role == "admin"
  }

  /** Adds `delta` to the stock of the product with id `pid`; no product, no change. */
  function AdjustStock(ps: seq<Product>, pid: int, delta: int): (r: seq<Product>)
    ensures |r| == |ps|
    ensures forall k :: 0 <= k < |ps| ==>
      r[k] == if ps[k].id == pid then ps[k].(stock := ps[k].stock + delta) else ps[k]
  {
    seq(|ps|, k requires 0 <= k < |ps| =>
      if ps[k].id == pid then ps[k].(stock := ps[k].stock + delta) else ps[k])
  }

  lemma AdjustStockKeepsIds(ps: seq<Product>, pid: int, delta: int)
    ensures forall k :: 0 <= k < |ps| ==> AdjustStock(ps, pid, delta)[k].id == ps[k].id
    ensures AscendingBy(ps, ProductId) ==> AscendingBy(AdjustStock(ps, pid, delta), ProductId)
  {
  }

  // ---------------------------------------------------------------
  // The database object the route handlers update in place
  // ---------------------------------------------------------------

  class Store {
    var users: seq<User>
    var products: seq<Product>
    var carts: seq<CartLine>
    var orders: seq<Order>
    var items: seq<OrderItem>
    var wishlist: seq<WishRow>
    var offers: seq<Offer>

    /** The current contents of every table. */
    function Snapshot(): Tables
      reads this
    {
      Tables(users, products, carts, orders, items, wishlist, offers)
    }

    /** Writes the session's version of every table back (db.session.commit()). */
    method Commit(t: Tables)
      modifies this
      ensures Snapshot() == t
    {
      users, products, carts, orders, items, wishlist, offers := t.users, t.products, t.carts, t.orders, t.items, t.wishlist, t.offers;
    }

    constructor Empty()
      ensures Snapshot() == Tables([], [], [], [], [], [], [])
      ensures Valid(Snapshot())
    {
      users, products, carts, orders, items, wishlist, offers := [], [], [], [], [], [], [];
    }
  }
}
