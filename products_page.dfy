/**
  The catalogue page (frontend/src/pages/Products.js): the search and category
  read from the address, the products taken from the response, the filter
  that decides which cards are shown, and the two handlers the cards call.
*/
module ProductsPage {
  import opened Common
  import opened Models
  import opened Db
  import opened ClientData
  import opened ApiClient
  import opened ProductCard
  import opened ProductRoutes

  /** `(params.get(key) || "").trim().toLowerCase()` */
  function QueryParam(v: Option<string>): (r: string)
    ensures v.None? ==> r == ""
    ensures v.Some? ==> r == Lower(Trim(v.value))
  {
    Lower(Trim(OptOrElse(v, "")))
  }

  /** A product as the page holds it: its name and category (None when absent) and what its card reads. */
  datatype Listed = Listed(name: Option<string>, category: Option<string>, card: CardProduct)

  /** The filter's test: the name contains the search, and the category (by default "Dairy") is the one asked for. */
  predicate Shown(p: Listed, q: string, cat: string) {
    && (q == "" || Contains(Lower(OptOrElse(p.name, "")), q))
    && (cat == "" || Lower(OptOrElse(p.category, "Dairy")) == cat)
  }

  function ShownBy(q: string, cat: string): Listed -> bool {
    (p: Listed) => Shown(p, q, cat)
  }

  /** filteredProducts: the shown products in their order; with no search and no category, all of them. */
  function FilteredProducts(ps: seq<Listed>, q: string, cat: string): (r: seq<Listed>)
    ensures forall p :: p in r <==> p in ps && Shown(p, q, cat)
    ensures |r| <= |ps|
    ensures q == "" && cat == "" ==> r == ps
  {
    if q == "" && cat == "" then
      FilterAll(ps, ShownBy(q, cat));
      Filter(ps, ShownBy(q, cat))
    else Filter(ps, ShownBy(q, cat))
  }

  /**
    `res.data?.products || (Array.isArray(res.data) ? res.data : [])`: a truthy
    "products" member is taken whatever it is, even when it is not an array.
  */
  function Normalise(data: Json<Listed>): (r: Json<Listed>)
    ensures Truthy(Member(data, "products")) ==> r == data.members["products"]
    ensures !Truthy(Member(data, "products")) ==> r == Arr(ArrayOr(data))
    ensures data.Arr? ==> r == data
  {
    if Truthy(Member(data, "products")) then Member(data, "products") else Arr(ArrayOr(data))
  }

  class Page {
    /** The products state; it holds whatever Normalise gave, so it may be no array at all. */
    var products: Json<Listed>
    var loading: bool
    var error: string

    constructor ()
      ensures products == Arr([]) && loading && error == ""
    {
      products, loading, error := Arr([]), true, "";
    }

    /** The cards shown for a search and category; None when the products state is not an array and rendering throws. */
    function Visible(q: string, cat: string): (r: Option<seq<Listed>>)
      reads this
      ensures r.Some? <==> products.Arr?
      ensures r.Some? ==> r.value == FilteredProducts(products.items, q, cat)
    {
      if products.Arr? then Some(FilteredProducts(products.items, q, cat)) else None
    }

    /** fetchProducts: a body replaces the products and clears the error; a failure keeps them and says so. */
    method FetchProducts(outcome: Fetch<Json<Listed>>)
      modifies this
      ensures !loading
      ensures outcome.Fetched? ==> products == Normalise(outcome.body) && error == ""
      ensures outcome.FetchFailed? ==> products == old(products) && error == "Failed to load products."
    {
      loading := true;
      match outcome {
        case Fetched(data) =>
          products := Normalise(data);
          error := "";
        case FetchFailed(_) =>
          error := "Failed to load products.";
      }
      loading := false;
    }
  }

  /** The body of POST /api/cart/add the page sends for a card. */
  datatype AddBody = AddBody(productId: int, quantity: int)

  /**
    addToCart(productId, quantity = 1), the cards' handler. It catches its own
    failures, so the card awaiting it always goes on as if it had succeeded.
  */
  method AddToCart(b: Browser, productId: int, quantity: Option<int>, outcome: Option<Failure>)
    returns (body: AddBody, alert: string)
    modifies b
    ensures body == AddBody(productId, if quantity.Some? then quantity.value else 1)
    ensures outcome.None? ==> alert == "Added to cart 🛒" && b.events == old(b.events) + [CartUpdated]
    ensures outcome.Some? ==> b.events == old(b.events)
    ensures outcome.Some? ==> alert == ErrorOr(outcome.value, MessageOr(outcome.value, "Failed to add to cart"))
    ensures b.local == old(b.local) && b.session == old(b.session) && b.replaced == old(b.replaced)
  {
    body := AddBody(productId, if quantity.Some? then quantity.value else 1);
    if outcome.None? {
      alert := "Added to cart 🛒";
      b.events := b.events + [CartUpdated];
    } else {
      alert := ErrorOr(outcome.value, MessageOr(outcome.value, "Failed to add to cart"));
    }
  }

  /** addToWishlist(productId), the cards' other handler; it too catches its own failures. */
  method AddToWishlist(b: Browser, productId: int, outcome: Option<Failure>) returns (path: string, alert: string)
    modifies b
    ensures path == "/wishlist/" + IntToString(productId)
    ensures outcome.None? ==> alert == "Added to wishlist ❤️" && b.events == old(b.events) + [WishlistUpdated]
    ensures outcome.Some? ==> b.events == old(b.events)
    ensures outcome.Some? ==> alert == MessageOr(outcome.value, "Failed to add to wishlist")
    ensures b.local == old(b.local) && b.session == old(b.session) && b.replaced == old(b.replaced)
  {
    path := "/wishlist/" + IntToString(productId);
    if outcome.None? {
      alert := "Added to wishlist ❤️";
      b.events := b.events + [WishlistUpdated];
    } else {
      alert := MessageOr(outcome.value, "Failed to add to wishlist");
    }
  }

  /** How the page holds a record of GET /api/products, which has no category. */
  function ListedOf(v: ProductView): Listed {
    Listed(Some(v.name), None, CardProduct(v.id, Some(v.stock), Some(v.discountPercent), None))
  }

  function ListedAll(vs: seq<ProductView>): (r: seq<Listed>)
    ensures |r| == |vs| && forall i :: 0 <= i < |vs| ==> r[i] == ListedOf(vs[i])
  {
    seq(|vs|, i requires 0 <= i < |vs| => ListedOf(vs[i]))
  }

  /** A card shows the discount and the stock the endpoint lists for its product. */
  lemma CardReadsListing(v: ProductView)
    ensures ProductCard.DiscountOf(ListedOf(v).card) == v.discountPercent
    ensures ProductCard.IsOutOfStock(ListedOf(v).card) <==> v.stock <= 0
  {
  }

  /**
    The endpoint lists no category, so every product counts as "Dairy": the
    category "dairy" filters nothing out and any other category shows nothing.
  */
  lemma CategoryFilterOnCatalogue(ps: seq<Product>, q: string, cat: string)
    ensures var ls := ListedAll(GetProducts(ps));
      cat == "dairy" ==> FilteredProducts(ls, q, cat) == FilteredProducts(ls, q, "")
    ensures var ls := ListedAll(GetProducts(ps));
      cat != "" && cat != "dairy" ==> FilteredProducts(ls, q, cat) == []
  {
    var ls := ListedAll(GetProducts(ps));
    assert Lower("Dairy") == "dairy";
    if cat == "dairy" {
      FilterSame(ls, ShownBy(q, cat), ShownBy(q, ""));
      if q == "" {
        FilterAll(ls, ShownBy(q, ""));
      }
    } else if cat != "" {
      FilterNone(ls, ShownBy(q, cat));
    }
  }
}
