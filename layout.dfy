/**
  The shop's frame around the user pages (frontend/src/components/Layout.js):
  the cart and wishlist badges, kept only while a token is stored and
  refreshed on "cart-updated" and "wishlist-updated", the search box that
  leads to the catalogue, the back button, and sign-out.
*/
module Layout {
  import opened Common
  import opened Models
  import opened Db
  import opened ClientData
  import opened ApiClient
  import opened AdminLayout
  import opened CartRoutes
  import opened WishlistRoutes
  import ProductsPage

  /** The quantities of the cart items, as the badge reads them. */
  function Quantities(items: seq<CartEntry>): (qs: seq<int>)
    ensures |qs| == |items| && forall i :: 0 <= i < |items| ==> qs[i] == items[i].quantity
  {
    seq(|items|, i requires 0 <= i < |items| => items[i].quantity)
  }

  /**
    The cart badge for a GET /api/cart body: `res.data?.items || []` summed
    with `Number(it.quantity || 1)`. A truthy "items" that is no array makes
    the sum throw, and the catch shows 0.
  */
  function CartBadge(data: Json<CartEntry>): (n: int)
    ensures Member(data, "items").Arr? ==> n == ItemCount(Quantities(Member(data, "items").items))
    ensures !Member(data, "items").Arr? ==> n == 0
  {
    var items := Member(data, "items");
    if items.Arr? then ItemCount(Quantities(items.items)) else 0
  }

  /** normalizeWishlist: the body itself, or the first of its members "wishlist", "items", "data", "wishlist_items" that is an array. */
  function NormalizeWishlist<T>(data: Json<T>): (r: seq<T>)
    ensures data.Arr? ==> r == data.items
    ensures !data.Arr? && !data.Obj? ==> r == []
  {
    FirstArray([data, Member(data, "wishlist"), Member(data, "items"), Member(data, "data"), Member(data, "wishlist_items")])
  }

  /** The catalogue address the search leads to, as URLSearchParams reads it back: the "q" and "cat" parameters. */
  datatype ProductsLink = ProductsLink(q: Option<string>, cat: Option<string>)

  /**
    goProductsWithFilters: the trimmed search as "q" when it is not empty, and
    the category as "cat" when it is not empty. The frame never sets its
    category, so in practice "cat" is absent.
  */
  function SearchLink(search: string, category: string): (l: ProductsLink)
    ensures l.q.Some? <==> Trim(search) != ""
    ensures l.q.Some? ==> l.q.value == Trim(search)
    ensures l.cat.Some? <==> category != ""
    ensures l.cat.Some? ==> l.cat.value == category
  {
    var q := Trim(search);
    ProductsLink(if q != "" then Some(q) else None, if category != "" then Some(category) else None)
  }

  /** `key=value`, the value encoded by `encode` (URLSearchParams' form encoding, not modelled). */
  function Param(key: string, value: Option<string>, encode: string -> string): seq<string> {
    if value.Some? then [key + "=" + encode(value.value)] else []
  }

  function JoinParams(ps: seq<string>): string {
    if ps == [] then "" else if |ps| == 1 then ps[0] else ps[0] + "&" + JoinParams(ps[1..])
  }

  /** The address navigated to: "/products", with "?" and the parameters only when there are any. */
  function ProductsUrl(l: ProductsLink, encode: string -> string): (url: string)
    ensures l.q.None? && l.cat.None? ==> url == "/products"
    ensures l.q.Some? || l.cat.Some? ==> url == "/products?" + JoinParams(Param("q", l.q, encode) + Param("cat", l.cat, encode))
  {
    var ps := Param("q", l.q, encode) + Param("cat", l.cat, encode);
    if ps == [] then "/products" else "/products?" + JoinParams(ps)
  }

  /** The catalogue reads back the lower-cased search and the lower-cased category. */
  lemma SearchReachesCatalogue(search: string, category: string)
    ensures ProductsPage.QueryParam(SearchLink(search, category).q) == Lower(Trim(search))
    ensures ProductsPage.QueryParam(SearchLink(search, category).cat) == Lower(Trim(category))
  {
    TrimIdempotent(search);
  }

  /** showBackBtn */
  predicate ShowBack(pathname: string) {
    pathname != "/products"
  }

  /** The frame's state. */
  class Frame {
    var cartCount: int
    var wishlistCount: int
    var search: string
    /** Never changed by the frame. */
    var category: string
    /** `getToken() || ""`, re-read on "auth-changed". */
    var token: string

    /** The badges are fetched and the update listeners attached exactly while a token is held. */
    predicate Listening()
      reads this
    {
      token != ""
    }

    /** Signed out, both badges show 0. */
    predicate BadgesCleared()
      reads this
    {
      token == "" ==> cartCount == 0 && wishlistCount == 0
    }

    constructor (b: Browser)
      ensures token == (var t := TokenOf(b.local, b.session); if t.Some? then t.value else "")
      ensures cartCount == 0 && wishlistCount == 0 && search == "" && category == ""
      ensures BadgesCleared()
    {
      var t := TokenOf(b.local, b.session);
      token := if t.Some? then t.value else "";
      cartCount, wishlistCount, search, category := 0, 0, "", "";
    }

    /** fetchCart */
    method FetchCart(outcome: Fetch<Json<CartEntry>>)
      modifies this
      ensures cartCount == (if outcome.Fetched? then CartBadge(outcome.body) else 0)
      ensures wishlistCount == old(wishlistCount) && search == old(search) && token == old(token)
    {
      match outcome {
        case Fetched(data) => cartCount := CartBadge(data);
        case FetchFailed(_) => cartCount := 0;
      }
    }

    /** fetchWishlist */
    method FetchWishlist(outcome: Fetch<Json<WishEntry>>)
      modifies this
      ensures wishlistCount == (if outcome.Fetched? then |NormalizeWishlist(outcome.body)| else 0)
      ensures cartCount == old(cartCount) && search == old(search) && token == old(token)
    {
      match outcome {
        case Fetched(data) => wishlistCount := |NormalizeWishlist(data)|;
        case FetchFailed(_) => wishlistCount := 0;
      }
    }

    /**
      "auth-changed": the token is read again from both storages. Losing it
      clears the badges; gaining it fetches both (the outcomes given).
    */
    method SyncAuth(b: Browser, cart: Fetch<Json<CartEntry>>, wishlist: Fetch<Json<WishEntry>>)
      requires BadgesCleared()
      modifies this
      ensures token == (var t := TokenOf(b.local, b.session); if t.Some? then t.value else "")
      ensures BadgesCleared()
      ensures old(token != "") == (token != "") ==> cartCount == old(cartCount) && wishlistCount == old(wishlistCount)
      ensures old(token == "") && token != "" ==>
        cartCount == (if cart.Fetched? then CartBadge(cart.body) else 0) &&
        wishlistCount == (if wishlist.Fetched? then |NormalizeWishlist(wishlist.body)| else 0)
      ensures search == old(search)
    {
      var t := TokenOf(b.local, b.session);
      var next := if t.Some? then t.value else "";
      var had := token != "";
      token := next;
      if had && next == "" {
        cartCount, wishlistCount := 0, 0;
      } else if !had && next != "" {
        FetchCart(cart);
        FetchWishlist(wishlist);
      }
    }

    /** The "cart-updated" listener, attached only while a token is held. */
    method OnCartUpdated(outcome: Fetch<Json<CartEntry>>)
      requires BadgesCleared()
      modifies this
      ensures BadgesCleared()
      ensures cartCount == (if Listening() then (if outcome.Fetched? then CartBadge(outcome.body) else 0) else old(cartCount))
      ensures wishlistCount == old(wishlistCount) && search == old(search) && token == old(token)
    {
      if token != "" {
        FetchCart(outcome);
      }
    }

    /** The "wishlist-updated" listener, attached only while a token is held. */
    method OnWishlistUpdated(outcome: Fetch<Json<WishEntry>>)
      requires BadgesCleared()
      modifies this
      ensures BadgesCleared()
      ensures wishlistCount == (if Listening() then (if outcome.Fetched? then |NormalizeWishlist(outcome.body)| else 0) else old(wishlistCount))
      ensures cartCount == old(cartCount) && search == old(search) && token == old(token)
    {
      if token != "" {
        FetchWishlist(outcome);
      }
    }

    /** The search button and the Enter key: the catalogue with the frame's search and category. */
    function SearchTarget(encode: string -> string): (url: string)
      reads this
      ensures Trim(search) == "" && category == "" ==> url == "/products"
    {
      ProductsUrl(SearchLink(search, category), encode)
    }

    /** handleLogout: both storages cleared, badges at 0, and a hard replace of the page by /login. */
    method HandleLogout(b: Browser)
      modifies this, b
      ensures b.local == Storage(None, None) && b.session == Storage(None, None)
      ensures b.events == old(b.events) + [AuthChanged]
      ensures b.replaced == old(b.replaced) + ["/login"]
      ensures b.pathname == old(b.pathname) && b.isRedirecting == old(b.isRedirecting)
      ensures token == "" && cartCount == 0 && wishlistCount == 0 && search == old(search)
      ensures BadgesCleared() && FrameUser(b.local, b.session) == None
    {
      b.ClearAuth();
      cartCount, wishlistCount, token := 0, 0, "";
      b.replaced := b.replaced + ["/login"];
    }
  }

  /**
    On the body GET /api/cart sends (its lines' quantities are all at least
    one) the badge is the plain number of units in the cart.
  */
  lemma CartBadgeCountsUnits(t: Tables, u: int)
    requires Valid(t)
    ensures var items := Entries(t.products, Filter(t.carts, OwnedBy(u)));
      CartBadge(Obj(map["items" := Arr(items)])) == Sum(Quantities(items))
  {
    var lines := Filter(t.carts, OwnedBy(u));
    var items := Entries(t.products, lines);
    var qs := Quantities(items);
    forall i | 0 <= i < |qs| ensures qs[i] != 0 {
      assert items[i] in items;
      EntriesListLines(t.products, lines);
      var j :| 0 <= j < |lines| && EntryOf(t.products, lines[j]) == Some(items[i]);
      assert lines[j] in t.carts;
    }
    ItemCountIsSum(qs);
  }
}
