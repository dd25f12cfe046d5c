/**
  One product on the catalogue (frontend/src/components/ProductCard.js): the
  stock and discount it reads off the product, the quantity stepper, and the
  two buttons that add the product to the cart or the wishlist, through the
  parent page's handler when one is given.
*/
module ProductCard {
  import opened Common
  import opened ClientData
  import opened ApiClient

  /** The members of a product the card reads; None is null or undefined. */
  datatype CardProduct = CardProduct(id: int, stock: Option<int>, discountPercent: Option<int>, discount: Option<int>)

  /** `Number(product.stock ?? 0)` */
  function StockOf(p: CardProduct): int {
    if p.stock.Some? then p.stock.value else 0
  }

  /** `stock <= 0`; a product without a stock is out of stock. */
  predicate IsOutOfStock(p: CardProduct) {
    StockOf(p) <= 0
  }

  /** `Number(product.discount_percent || product.discount || 0)`: the first of the two that is present and not 0. */
  function DiscountOf(p: CardProduct): (d: int)
    ensures p.discountPercent.Some? && p.discountPercent.value != 0 ==> d == p.discountPercent.value
    ensures (p.discountPercent.None? || p.discountPercent.value == 0) && p.discount.Some? ==> d == p.discount.value
    ensures (p.discountPercent.None? || p.discountPercent.value == 0) && p.discount.None? ==> d == 0
  {
    if p.discountPercent.Some? && p.discountPercent.value != 0 then p.discountPercent.value
    else if p.discount.Some? then p.discount.value
    else 0
  }

  /** The cart request the button makes: the parent's handler, or a post of its own. */
  datatype CartRequest = ViaParent(productId: int, quantity: int) | Posted(path: string, productId: int, quantity: int)

  /**
    The path of the card's own post. The client already prefixes every path
    with "/api", so this request goes to /api/api/cart/add, where the server
    has no route.
  */
  const OwnCartPath := "/api/cart/add"

  class Card {
    const product: CardProduct
    var quantity: int
    var cartLoading: bool
    var wishlistLoading: bool

    /**
      The stepper's range: at least one, and at most the stock when the stock
      is positive. A negative stock holds the quantity at one; a zero stock
      bounds nothing (the stepper is hidden then).
    */
    predicate InRange()
      reads this
    {
      && quantity >= 1
      && (StockOf(product) > 0 ==> quantity <= StockOf(product))
      && (StockOf(product) < 0 ==> quantity == 1)
    }

    constructor (p: CardProduct)
      ensures product == p && quantity == 1 && !cartLoading && !wishlistLoading
      ensures InRange()
    {
      product := p;
      quantity := 1;
      cartLoading, wishlistLoading := false, false;
    }

    /** The "+" button's `disabled`, which is also the handler's guard: `stock && quantity >= stock`. */
    predicate AtLimit()
      reads this
    {
      StockOf(product) != 0 && quantity >= StockOf(product)
    }

    /** increaseQty */
    method IncreaseQty()
      requires InRange()
      modifies this
      ensures InRange()
      ensures quantity == if old(AtLimit()) then old(quantity) else old(quantity) + 1
      ensures cartLoading == old(cartLoading) && wishlistLoading == old(wishlistLoading)
    {
      if StockOf(product) != 0 && quantity >= StockOf(product) {
        return;
      }
      quantity := quantity + 1;
    }

    /** decreaseQty */
    method DecreaseQty()
      requires InRange()
      modifies this
      ensures InRange()
      ensures quantity == if old(quantity) > 1 then old(quantity) - 1 else old(quantity)
      ensures cartLoading == old(cartLoading) && wishlistLoading == old(wishlistLoading)
    {
      if quantity > 1 {
        quantity := quantity - 1;
      }
    }

    /**
      addToCart: the parent's handler with the id and the quantity when there
      is one, else the card's own post. `outcome` is how the awaited call
      ended (None when it did not throw); only then is "cart-updated" dispatched.
    */
    method AddToCart(b: Browser, hasParentHandler: bool, outcome: Option<Failure>) returns (request: CartRequest, alert: string)
      modifies this, b
      ensures quantity == old(quantity) && wishlistLoading == old(wishlistLoading) && !cartLoading
      ensures hasParentHandler ==> request == ViaParent(product.id, quantity)
      ensures !hasParentHandler ==> request == Posted(OwnCartPath, product.id, quantity)
      ensures outcome.None? ==> b.events == old(b.events) + [CartUpdated] && alert == "✅ Added to cart"
      ensures outcome.Some? ==> b.events == old(b.events)
      ensures outcome.Some? ==> alert == ErrorOr(outcome.value, MessageOr(outcome.value, "❌ Failed to add to cart"))
      ensures b.local == old(b.local) && b.session == old(b.session) && b.replaced == old(b.replaced)
    {
      cartLoading := true;
      if hasParentHandler {
        request := ViaParent(product.id, quantity);
      } else {
        request := Posted(OwnCartPath, product.id, quantity);
      }
      if outcome.None? {
        b.events := b.events + [CartUpdated];
        alert := "✅ Added to cart";
      } else {
        alert := ErrorOr(outcome.value, MessageOr(outcome.value, "❌ Failed to add to cart"));
      }
      cartLoading := false;
    }

    /** addToWishlist: a 400 is read as "already in the wishlist"; other failures show the reply's message. */
    method AddToWishlist(b: Browser, outcome: Option<Failure>) returns (alert: string)
      modifies this, b
      ensures quantity == old(quantity) && cartLoading == old(cartLoading) && !wishlistLoading
      ensures outcome.None? ==> b.events == old(b.events) + [WishlistUpdated] && alert == "❤️ Added to wishlist"
      ensures outcome.Some? ==> b.events == old(b.events)
      ensures outcome.Some? && outcome.value.Response? && outcome.value.status == 400 ==> alert == "⚠ Already in wishlist"
      ensures outcome.Some? && !(outcome.value.Response? && outcome.value.status == 400) ==>
        alert == MessageOr(outcome.value, "❌ Failed to add to wishlist")
      ensures b.local == old(b.local) && b.session == old(b.session) && b.replaced == old(b.replaced)
    {
      wishlistLoading := true;
      if outcome.None? {
        b.events := b.events + [WishlistUpdated];
        alert := "❤️ Added to wishlist";
      } else if outcome.value.Response? && outcome.value.status == 400 {
        alert := "⚠ Already in wishlist";
      } else {
        alert := MessageOr(outcome.value, "❌ Failed to add to wishlist");
      }
      wishlistLoading := false;
    }
  }
}
