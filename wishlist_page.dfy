/**
  The wishlist page (frontend/src/pages/Wishlist.js): the list loaded from
  GET /api/wishlist/, the removal that drops the item locally once the server
  has deleted it, and the button that puts one unit of an item in the cart.
*/
module WishlistPage {
  import opened Common
  import opened Models
  import opened Db
  import opened ClientData
  import opened ApiClient
  import opened WishlistRoutes

  /** `item.wishlist_id !== wishlistId` */
  function OtherThan(id: int): WishEntry -> bool {
    (e: WishEntry) => e.wishlistId != id
  }

  /** The "Add to Cart" button's `disabled`: `!item.stock || item.stock <= 0`. */
  predicate AddDisabled(e: WishEntry) {
    e.stock == 0 || e.stock <= 0
  }

  /** The body of POST /api/cart/add the page sends: always one unit. */
  datatype AddBody = AddBody(productId: int, quantity: int)

  class Page {
    var items: seq<WishEntry>
    var loading: bool

    constructor ()
      ensures items == [] && loading
    {
      items, loading := [], true;
    }

    /** fetchWishlist: an array body replaces the list, any other body empties it, a failure keeps it and alerts. */
    method FetchWishlist(outcome: Fetch<Json<WishEntry>>) returns (alert: Option<string>)
      modifies this
      ensures !loading
      ensures outcome.Fetched? ==> items == ArrayOr(outcome.body) && alert.None?
      ensures outcome.FetchFailed? ==> items == old(items)
      ensures outcome.FetchFailed? ==> alert == Some(MessageOr(outcome.failure, "Failed to load wishlist"))
    {
      match outcome {
        case Fetched(data) =>
          if data.Arr? {
            items := data.items;
          } else {
            items := [];
          }
          alert := None;
        case FetchFailed(f) =>
          alert := Some(MessageOr(f, "Failed to load wishlist"));
      }
      loading := false;
    }

    /**
      removeItem: DELETE /api/wishlist/<id>; once it succeeds the item with
      that id leaves the list and "wishlist-updated" is dispatched.
    */
    method RemoveItem(b: Browser, id: int, outcome: Option<Failure>) returns (path: string, alert: Option<string>)
      modifies this, b
      ensures path == "/wishlist/" + IntToString(id)
      ensures outcome.None? ==> items == Filter(old(items), OtherThan(id)) && alert.None?
      ensures outcome.None? ==> b.events == old(b.events) + [WishlistUpdated]
      ensures outcome.Some? ==> items == old(items) && b.events == old(b.events)
      ensures outcome.Some? ==> alert == Some(MessageOr(outcome.value, "Failed to remove item"))
      ensures forall e :: e in items <==> e in old(items) && (outcome.None? ==> e.wishlistId != id)
      ensures loading == old(loading)
      ensures b.local == old(b.local) && b.session == old(b.session) && b.replaced == old(b.replaced)
    {
      path := "/wishlist/" + IntToString(id);
      if outcome.None? {
        items := Filter(items, OtherThan(id));
        b.events := b.events + [WishlistUpdated];
        alert := None;
      } else {
        alert := Some(MessageOr(outcome.value, "Failed to remove item"));
      }
    }
  }

  /** addToCart(product_id): one unit; success dispatches "cart-updated". */
  method AddToCart(b: Browser, productId: int, outcome: Option<Failure>) returns (body: AddBody, alert: string)
    modifies b
    ensures body == AddBody(productId, 1)
    ensures outcome.None? ==> alert == "Added to cart 🛒" && b.events == old(b.events) + [CartUpdated]
    ensures outcome.Some? ==> alert == ErrorOr(outcome.value, "Failed to add to cart") && b.events == old(b.events)
    ensures b.local == old(b.local) && b.session == old(b.session) && b.replaced == old(b.replaced)
  {
    body := AddBody(productId, 1);
    if outcome.None? {
      b.events := b.events + [CartUpdated];
      alert := "Added to cart 🛒";
    } else {
      alert := ErrorOr(outcome.value, "Failed to add to cart");
    }
  }

  /** The row condition behind OtherThan. */
  function RowOtherThan(id: int): WishRow -> bool {
    (w: WishRow) => w.id != id
  }

  /** Dropping rows by id and then listing them is listing them and then dropping entries by id. */
  lemma {:induction false} EntriesDropId(ps: seq<Product>, rows: seq<WishRow>, id: int)
    requires forall w :: w in rows ==> FindProduct(ps, w.productId).Some?
    ensures EntriesFor(ps, Filter(rows, RowOtherThan(id))) == Filter(EntriesFor(ps, rows), OtherThan(id))
  {
    if rows != [] {
      var w, rest := rows[0], rows[1..];
      assert rows == [w] + rest;
      EntriesDropId(ps, rest, id);
      EntriesForCons(ps, w, rest);
      FilterCons(w, rest, RowOtherThan(id));
      FilterCons(EntryFor(ps, w), EntriesFor(ps, rest), OtherThan(id));
      if w.id != id {
        EntriesForCons(ps, w, Filter(rest, RowOtherThan(id)));
      }
    }
  }

  lemma EntriesForCons(ps: seq<Product>, w: WishRow, rest: seq<WishRow>)
    requires FindProduct(ps, w.productId).Some?
    requires forall v :: v in rest ==> FindProduct(ps, v.productId).Some?
    ensures EntriesFor(ps, [w] + rest) == [EntryFor(ps, w)] + EntriesFor(ps, rest)
  {
  }

  /**
    The page's local removal agrees with the server: after DELETE succeeds,
    the list the page keeps is the list GET /api/wishlist/ would now return.
  */
  lemma RemovalAgreesWithServer(t: Tables, u: int, id: int)
    requires RemoveFromWishlistOn(t, u, id).1.Ok?
    ensures WishlistOn(RemoveFromWishlistOn(t, u, id).0, u) == Filter(WishlistOn(t, u), OtherThan(id))
  {
    var t' := RemoveFromWishlistOn(t, u, id).0;
    var ps := t.products;
    var mine := Filter(t.wishlist, MineW(u));
    assert t'.wishlist == Filter(t.wishlist, NotRow(id, u));
    FilterCommute(t.wishlist, NotRow(id, u), MineW(u));
    FilterSame(mine, NotRow(id, u), RowOtherThan(id));
    var mine' := Filter(mine, RowOtherThan(id));
    FilterReversed(mine, RowOtherThan(id));
    var rows := Filter(Reversed(mine), InCatalogue(ps));
    FilterCommute(Reversed(mine), RowOtherThan(id), InCatalogue(ps));
    EntriesDropId(ps, rows, id);
  }
}
