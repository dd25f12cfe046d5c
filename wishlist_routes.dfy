/**
  The wishlist endpoints (backend/routes/wishlist.py): add a product to the
  signed-in user's wishlist, list it newest first, remove a row.

  The user id is the JWT identity; the handlers pass it to the queries as the
  string it is, and SQLite's integer affinity on user_id makes that compare
  and store as the number, so the model takes it as an `int`.
*/
module WishlistRoutes {
  import opened Common
  import opened Models
  import opened Db

  /** The WHERE clause user_id = u on the wishlist table. */
  function MineW(u: int): WishRow -> bool {
    (w: WishRow) => w.userId == u
  }

  /** Every row except user u's row with this id. */
  function NotRow(id: int, u: int): WishRow -> bool {
    (w: WishRow) => !(w.id == id && w.userId == u)
  }

  /** Index of the first row of user `u` for product `p` (filter_by(user_id, product_id).first()). */
  function WishPairIndex(rows: seq<WishRow>, u: int, p: int): (r: Option<nat>)
    ensures r.Some? ==> r.value < |rows| && rows[r.value].userId == u && rows[r.value].productId == p
    ensures r.None? ==> forall k :: 0 <= k < |rows| ==> !(rows[k].userId == u && rows[k].productId == p)
  {
    if rows == [] then None
    else if rows[0].userId == u && rows[0].productId == p then Some(0)
    else match WishPairIndex(rows[1..], u, p)
      case None => None
      case Some(k) => Some(k + 1)
  }

  /** Index of the first row with this id that belongs to user `u`. */
  function OwnRowIndex(rows: seq<WishRow>, id: int, u: int): (r: Option<nat>)
    ensures r.Some? ==> r.value < |rows| && rows[r.value].id == id && rows[r.value].userId == u
    ensures r.None? ==> forall k :: 0 <= k < |rows| ==> !(rows[k].id == id && rows[k].userId == u)
  {
    if rows == [] then None
    else if rows[0].id == id && rows[0].userId == u then Some(0)
    else match OwnRowIndex(rows[1..], id, u)
      case None => None
      case Some(k) => Some(k + 1)
  }

  // ---------------------------------------------------------------
  // POST /api/wishlist/<product_id>
  // ---------------------------------------------------------------

  datatype WishAdded = WishAdded(message: string, wishlistId: int, productId: int)

  /** The effect of add_to_wishlist. */
  function AddToWishlistOn(t: Tables, u: int, productId: int): (res: (Tables, Reply<WishAdded>))
    ensures res.1.Err? ==> res.0 == t
    ensures FindProduct(t.products, productId).None? <==> res.1 == Err(404, "Product not found")
    ensures FindProduct(t.products, productId).Some? && WishPairIndex(t.wishlist, u, productId).Some? ==>
      res.1 == Err(400, "Already in wishlist")
    ensures res.1.Ok? <==> FindProduct(t.products, productId).Some? && WishPairIndex(t.wishlist, u, productId).None?
    ensures res.1.Ok? ==>
      var id := FreshKey(t.wishlist, WishId);
      && res.1 == Ok(201, WishAdded("Added to wishlist", id, productId))
      && res.0 == t.(wishlist := t.wishlist + [WishRow(id, u, productId)])
  {
    if FindProduct(t.products, productId).None? then (t, Err(404, "Product not found"))
    else if WishPairIndex(t.wishlist, u, productId).Some? then (t, Err(400, "Already in wishlist"))
    else
      var id := FreshKey(t.wishlist, WishId);
      (t.(wishlist := t.wishlist + [WishRow(id, u, productId)]), Ok(201, WishAdded("Added to wishlist", id, productId)))
  }

  lemma AddToWishlistKeepsValid(t: Tables, u: int, productId: int)
    requires Valid(t)
    ensures Valid(AddToWishlistOn(t, u, productId).0)
  {
    var res := AddToWishlistOn(t, u, productId);
    if res.1.Ok? {
      var row := WishRow(FreshKey(t.wishlist, WishId), u, productId);
      AppendAscending(t.wishlist, WishId, row);
      forall x | x in t.wishlist ensures !(x.userId == u && x.productId == productId) {
        var k :| 0 <= k < |t.wishlist| && t.wishlist[k] == x;
      }
    }
  }

  /** Adding the same product again is refused and changes nothing: a user's wishlist names a product at most once. */
  lemma AddToWishlistTwiceRefused(t: Tables, u: int, productId: int)
    requires AddToWishlistOn(t, u, productId).1.Ok?
    ensures var t' := AddToWishlistOn(t, u, productId).0;
      AddToWishlistOn(t', u, productId) == (t', Err(400, "Already in wishlist"))
  {
    var t' := AddToWishlistOn(t, u, productId).0;
    assert t'.products == t.products;
    assert t'.wishlist[|t.wishlist|].userId == u && t'.wishlist[|t.wishlist|].productId == productId;
  }

  method AddToWishlist(db: Store, u: int, productId: int) returns (r: Reply<WishAdded>)
    requires Valid(db.Snapshot())
    modifies db
    ensures (db.Snapshot(), r) == AddToWishlistOn(old(db.Snapshot()), u, productId)
    ensures Valid(db.Snapshot())
  {
    AddToWishlistKeepsValid(db.Snapshot(), u, productId);
    var product := FindProduct(db.products, productId);
    if product.None? {
      return Err(404, "Product not found");
    }
    var existing := WishPairIndex(db.wishlist, u, productId);
    if existing.Some? {
      return Err(400, "Already in wishlist");
    }
    var id := FreshKey(db.wishlist, WishId);
    db.Commit(db.Snapshot().(wishlist := db.wishlist + [WishRow(id, u, productId)]));
    return Ok(201, WishAdded("Added to wishlist", id, productId));
  }

  // ---------------------------------------------------------------
  // GET /api/wishlist/
  // ---------------------------------------------------------------

  /** One item of the wishlist as get_wishlist lists it. */
  datatype WishEntry = WishEntry(
    wishlistId: int,
    productId: int,
    name: string,
    price: int,
    stock: int,
    image: Option<string>)

  /** The row's product still exists (item.product is not None). */
  function InCatalogue(ps: seq<Product>): WishRow -> bool {
    (w: WishRow) => FindProduct(ps, w.productId).Some?
  }

  function EntryFor(ps: seq<Product>, w: WishRow): WishEntry
    requires FindProduct(ps, w.productId).Some?
  {
    var p := FindProduct(ps, w.productId).value;
    WishEntry(w.id, p.id, p.name, p.price, p.stock, p.image)
  }

  /** The entries listed for rows whose product exists, in the same order. */
  function EntriesFor(ps: seq<Product>, rows: seq<WishRow>): (v: seq<WishEntry>)
    requires forall w :: w in rows ==> FindProduct(ps, w.productId).Some?
    ensures |v| == |rows|
    ensures forall i :: 0 <= i < |rows| ==> v[i] == EntryFor(ps, rows[i])
  {
    seq(|rows|, i requires 0 <= i < |rows| => EntryFor(ps, rows[i]))
  }

  /** What get_wishlist answers: the user's rows, latest id first, without those whose product is gone. */
  function WishlistOn(t: Tables, u: int): (v: seq<WishEntry>)
    ensures |v| <= |Filter(t.wishlist, MineW(u))|
  {
    var rows := Filter(Reversed(Filter(t.wishlist, MineW(u))), InCatalogue(t.products));
    EntriesFor(t.products, rows)
  }

  /** An entry is listed exactly when it stands for one of the user's rows whose product exists. */
  lemma WishlistIsOwnRows(t: Tables, u: int)
    ensures forall e :: e in WishlistOn(t, u) <==>
      exists w :: w in t.wishlist && w.userId == u && FindProduct(t.products, w.productId).Some? && e == EntryFor(t.products, w)
  {
    var mine := Filter(t.wishlist, MineW(u));
    var rows := Filter(Reversed(mine), InCatalogue(t.products));
    var v := WishlistOn(t, u);
    forall e | e in v
      ensures exists w :: w in t.wishlist && w.userId == u && FindProduct(t.products, w.productId).Some? && e == EntryFor(t.products, w)
    {
      var i :| 0 <= i < |v| && v[i] == e;
      assert rows[i] in rows;
    }
    forall w | w in t.wishlist && w.userId == u && FindProduct(t.products, w.productId).Some?
      ensures EntryFor(t.products, w) in v
    {
      assert w in mine && w in Reversed(mine) && w in rows;
      var i :| 0 <= i < |rows| && rows[i] == w;
      assert v[i] == EntryFor(t.products, w);
    }
  }

  /** Entries come latest row first. */
  lemma WishlistNewestFirst(t: Tables, u: int)
    requires Valid(t)
    ensures forall i, j :: 0 <= i < j < |WishlistOn(t, u)| ==> WishlistOn(t, u)[i].wishlistId > WishlistOn(t, u)[j].wishlistId
  {
    var mine := Filter(t.wishlist, MineW(u));
    FilterReversed(mine, InCatalogue(t.products));
    var kept := Filter(mine, InCatalogue(t.products));
    FilterAscending(t.wishlist, MineW(u), WishId);
    FilterAscending(mine, InCatalogue(t.products), WishId);
    ReversedDescending(kept, WishId);
    var rows := Reversed(kept);
    var v := WishlistOn(t, u);
    forall i, j | 0 <= i < j < |v| ensures v[i].wishlistId > v[j].wishlistId {
      assert v[i].wishlistId == rows[i].id && v[j].wishlistId == rows[j].id;
      assert WishId(rows[i]) > WishId(rows[j]);
    }
  }

  /** One more listed row adds its entry at the end. */
  lemma EntriesForAppend(ps: seq<Product>, rows: seq<WishRow>, w: WishRow)
    requires forall x :: x in rows ==> FindProduct(ps, x.productId).Some?
    requires FindProduct(ps, w.productId).Some?
    ensures EntriesFor(ps, rows + [w]) == EntriesFor(ps, rows) + [EntryFor(ps, w)]
  {
    assert forall x :: x in rows + [w] ==> x in rows || x == w;
  }

  /** One more row lists its entry, if its product still exists. */
  lemma WishlistStep(ps: seq<Product>, rows: seq<WishRow>, i: nat)
    requires i < |rows|
    ensures var kept := Filter(rows[..i + 1], InCatalogue(ps));
      var w := rows[i];
      && kept == Filter(rows[..i], InCatalogue(ps)) + (if FindProduct(ps, w.productId).Some? then [w] else [])
  {
    assert rows[..i + 1] == rows[..i] + [rows[i]];
    FilterAppend(rows[..i], [rows[i]], InCatalogue(ps));
    if FindProduct(ps, rows[i].productId).Some? {
      assert Filter([rows[i]], InCatalogue(ps)) == [rows[i]] + Filter([], InCatalogue(ps));
    } else {
      assert Filter([rows[i]], InCatalogue(ps)) == Filter([], InCatalogue(ps));
    }
  }

  /** get_wishlist: walks the user's rows latest first and appends an entry for each row whose product exists. */
  method GetWishlist(db: Store, u: int) returns (result: seq<WishEntry>)
    ensures result == WishlistOn(db.Snapshot(), u)
  {
    result := ListRows(db.products, Reversed(Filter(db.wishlist, MineW(u))));
  }

  /** The loop of get_wishlist over the user's rows, latest first: each row whose product exists adds its entry. */
  method ListRows(ps: seq<Product>, rows: seq<WishRow>) returns (result: seq<WishEntry>)
    ensures result == EntriesFor(ps, Filter(rows, InCatalogue(ps)))
  {
    result := [];
    var i := 0;
    while i < |rows|
      invariant 0 <= i <= |rows|
      invariant result == EntriesFor(ps, Filter(rows[..i], InCatalogue(ps)))
    {
      WishlistStep(ps, rows, i);
      var product := FindProduct(ps, rows[i].productId);
      if product.Some? {
        EntriesForAppend(ps, Filter(rows[..i], InCatalogue(ps)), rows[i]);
        result := result + [WishEntry(rows[i].id, product.value.id, product.value.name, product.value.price,
                                      product.value.stock, product.value.image)];
      }
      i := i + 1;
    }
    assert rows[..|rows|] == rows;
  }

  // ---------------------------------------------------------------
  // DELETE /api/wishlist/<wishlist_id>
  // ---------------------------------------------------------------

  /** The effect of remove_from_wishlist: the user's row with that id disappears, nothing else does. */
  function RemoveFromWishlistOn(t: Tables, u: int, id: int): (res: (Tables, Reply<string>))
    ensures res.1.Err? ==> res.0 == t
    ensures OwnRowIndex(t.wishlist, id, u).None? <==> res.1 == Err(404, "Item not found")
    ensures res.1.Ok? ==> res.1 == Ok(200, "Removed from wishlist")
    ensures res.0 == t.(wishlist := res.0.wishlist)
    ensures forall w :: w in res.0.wishlist <==> w in t.wishlist && !(w.id == id && w.userId == u)
  {
    match OwnRowIndex(t.wishlist, id, u)
    case None => (t, Err(404, "Item not found"))
    case Some(_) => (t.(wishlist := Filter(t.wishlist, NotRow(id, u))), Ok(200, "Removed from wishlist"))
  }

  lemma RemoveFromWishlistKeepsValid(t: Tables, u: int, id: int)
    requires Valid(t)
    ensures Valid(RemoveFromWishlistOn(t, u, id).0)
  {
    FilterAscending(t.wishlist, NotRow(id, u), WishId);
  }

  /** Removing the row just added gives back the tables as they were before the add. */
  lemma AddThenRemoveRestores(t: Tables, u: int, productId: int)
    requires Valid(t)
    requires AddToWishlistOn(t, u, productId).1.Ok?
    ensures var (t', r) := AddToWishlistOn(t, u, productId);
      RemoveFromWishlistOn(t', u, r.body.wishlistId) == (t, Ok(200, "Removed from wishlist"))
  {
    var (t', r) := AddToWishlistOn(t, u, productId);
    var id := r.body.wishlistId;
    var row := WishRow(id, u, productId);
    assert t'.wishlist == t.wishlist + [row];
    assert t'.wishlist[|t.wishlist|] == row;
    assert OwnRowIndex(t'.wishlist, id, u).Some?;
    assert forall k :: 0 <= k < |t.wishlist| ==> NotRow(id, u)(t.wishlist[k]);
    FilterAll(t.wishlist, NotRow(id, u));
    FilterAppend(t.wishlist, [row], NotRow(id, u));
    assert Filter([row], NotRow(id, u)) == [];
    assert Filter(t'.wishlist, NotRow(id, u)) == t.wishlist;
  }

  method RemoveFromWishlist(db: Store, u: int, id: int) returns (r: Reply<string>)
    requires Valid(db.Snapshot())
    modifies db
    ensures (db.Snapshot(), r) == RemoveFromWishlistOn(old(db.Snapshot()), u, id)
    ensures Valid(db.Snapshot())
  {
    RemoveFromWishlistKeepsValid(db.Snapshot(), u, id);
    var item := OwnRowIndex(db.wishlist, id, u);
    if item.None? {
      return Err(404, "Item not found");
    }
    db.Commit(db.Snapshot().(wishlist := Filter(db.wishlist, NotRow(id, u))));
    return Ok(200, "Removed from wishlist");
  }
}
