/**
  The product endpoints (backend/routes/products.py, the definitions that are
  live once the module has rebound its blueprint): the public catalogue, and
  the admin's add, edit, delete and stock change.

  Form and JSON fields arrive as `Input<int>`: absent, a number, or text that
  float(...)/int(...) refuses (which raises, so Flask answers 500, except in
  update_stock, which catches it). Prices are whole rupees; the discount is
  Python's round(), half to even, of the exact ratio (original - price) * 100 / original,
  not of the floating-point quotient-then-product the handlers compute.
*/
module ProductRoutes {
  import opened Common
  import opened Models
  import opened Db

  // ---------------------------------------------------------------
  // GET /api/products
  // ---------------------------------------------------------------

  /** The record get_products lists for a product; the category is not part of it. */
  datatype ProductView = ProductView(
    id: int,
    name: string,
    price: int,
    originalPrice: int,
    discountPercent: int,
    unit: Option<string>,
    stock: int,
    image: Option<string>)

  function ViewOf(p: Product): ProductView {
    ProductView(p.id, p.name, p.price, p.originalPrice, p.discountPercent, p.unit, p.stock, p.image)
  }

  /** get_products: one record per product, in table order. */
  function GetProducts(ps: seq<Product>): (r: seq<ProductView>)
    ensures |r| == |ps|
    ensures forall i :: 0 <= i < |ps| ==> r[i].id == ps[i].id && r[i].stock == ps[i].stock && r[i].price == ps[i].price
  {
    seq(|ps|, i requires 0 <= i < |ps| => ViewOf(ps[i]))
  }

  /** Every product is listed with all eight fields, and nothing else is listed. */
  lemma GetProductsListsEveryProduct(ps: seq<Product>)
    ensures forall p :: p in ps ==> ViewOf(p) in GetProducts(ps)
    ensures forall v :: v in GetProducts(ps) ==> exists p :: p in ps && v == ViewOf(p)
  {
    var r := GetProducts(ps);
    forall p | p in ps ensures ViewOf(p) in r {
      var i :| 0 <= i < |ps| && ps[i] == p;
      assert r[i] == ViewOf(p);
    }
  }

  // ---------------------------------------------------------------
  // The discount rule
  // ---------------------------------------------------------------

  /** Python's round(n / d) for d > 0: the nearest integer, ties to the even one. */
  function RoundHalfEven(n: int, d: int): (r: int)
    requires d > 0
    ensures -d <= 2 * (r * d - n) <= d
    ensures (2 * (r * d - n) == d || 2 * (r * d - n) == -d) ==> r % 2 == 0
  {
    var q := n / d;
    var rem := n % d;
    assert n == q * d + rem;
    if 2 * rem > d then q + 1
    else if 2 * rem < d then q
    else if q % 2 == 0 then q
    else q + 1
  }

  /** Python's round(n / d) for any non-zero d. */
  function RoundRatio(n: int, d: int): int
    requires d != 0
  {
    if d > 0 then RoundHalfEven(n, d) else RoundHalfEven(-n, -d)
  }

  /**
    The discount_percent the handlers store: round((original - price) / original * 100)
    when the original price is above the price, else 0, rounding the exact ratio. None when that division is
    by zero (an original price of 0 above a negative price), which raises.
  */
  function DiscountOf(price: int, original: int): (r: Option<int>)
    ensures original <= price ==> r == Some(0)
    ensures r.None? <==> original > price && original == 0
  {
    if original > price then
      if original == 0 then None else Some(RoundRatio((original - price) * 100, original))
    else Some(0)
  }

  /** For non-negative prices marked down, the discount is a percentage within half a point of the exact one. */
  lemma DiscountIsNearestPercent(price: int, original: int)
    requires 0 <= price < original
    ensures DiscountOf(price, original).Some?
    ensures var d := DiscountOf(price, original).value;
      && 0 <= d <= 100
      && -original <= 2 * (d * original - (original - price) * 100) <= original
  {
    var n := (original - price) * 100;
    var d := RoundHalfEven(n, original);
    assert DiscountOf(price, original) == Some(d);
    if d < 0 {
      MulMonotone(d, -1, original);
    }
    if d > 100 {
      MulMonotone(101, d, original);
    }
  }

  lemma MulMonotone(a: int, b: int, c: int)
    requires a <= b && c >= 0
    ensures a * c <= b * c
  {
  }

  // ---------------------------------------------------------------
  // Admin checks
  // ---------------------------------------------------------------

  /**
    How add, update and delete treat the caller: `user.role` on a missing user
    raises (500); a role other than "admin" is refused.
  */
  function AdminRefusal(us: seq<User>, u: int): (r: Option<Reply<string>>)
    ensures r.None? <==> IsAdmin(us, u)
    ensures FindUser(us, u).None? ==> r == Some(Err(500, ServerError))
    ensures FindUser(us, u).Some? && !IsAdmin(us, u) ==> r == Some(Err(403, "Admin access required"))
  {
    match FindUser(us, u)
    case None => Some(Err(500, ServerError))
    case Some(user) => if user.role != "admin" then Some(Err(403, "Admin access required")) else None
  }

  /** The answer of Product.query.get_or_404 for a missing id. */
  const NotFound: string := "Not Found"

  // ---------------------------------------------------------------
  // POST /api/products
  // ---------------------------------------------------------------

  /** The form fields add_product and update_product read (the image file is not modelled). */
  datatype ProductForm = ProductForm(
    name: Option<string>,
    price: Input<int>,
    originalPrice: Input<int>,
    unit: Option<string>,
    stock: Input<int>)

  /** A field read with a default: the default when absent, the number otherwise. */
  function OrDefault(i: Input<int>, default: int): int {
    match i
    case Value(v) => v
    case _ => default
  }

  /** The product add_product would insert, if every conversion and the discount succeed. */
  function NewProduct(ps: seq<Product>, f: ProductForm): (r: Option<Product>)
    ensures r.Some? <==>
      && !f.price.Unparsable? && !f.originalPrice.Unparsable? && !f.stock.Unparsable?
      && DiscountOf(OrDefault(f.price, 0), OrDefault(f.originalPrice, OrDefault(f.price, 0))).Some?
  {
    if f.price.Unparsable? || f.originalPrice.Unparsable? || f.stock.Unparsable? then None
    else
      var price := OrDefault(f.price, 0);
      var original := OrDefault(f.originalPrice, price);
      match DiscountOf(price, original)
      case None => None
      case Some(d) =>
        Some(Product(FreshKey(ps, ProductId), if f.name.Some? then f.name.value else "", price, original, d,
                     f.unit, OrDefault(f.stock, 0), None, DefaultCategory))
  }

  /** The effect of add_product; a missing name fails the NOT NULL column at commit. */
  function AddProductOn(t: Tables, u: int, f: ProductForm): (res: (Tables, Reply<string>))
    ensures res.1.Err? ==> res.0 == t
    ensures !IsAdmin(t.users, u) ==> res.1 == AdminRefusal(t.users, u).value
    ensures IsAdmin(t.users, u) && (NewProduct(t.products, f).None? || f.name.None?) ==> res.1 == Err(500, ServerError)
    ensures res.1.Ok? <==> IsAdmin(t.users, u) && NewProduct(t.products, f).Some? && f.name.Some?
    ensures res.1.Ok? ==> res.1 == Ok(201, "Product added successfully")
    ensures res.1.Ok? ==> res.0 == t.(products := t.products + [NewProduct(t.products, f).value])
  {
    match AdminRefusal(t.users, u)
    case Some(e) => (t, e)
    case None =>
      match NewProduct(t.products, f)
      case None => (t, Err(500, ServerError))
      case Some(p) =>
        if f.name.None? then (t, Err(500, ServerError))
        else (t.(products := t.products + [p]), Ok(201, "Product added successfully"))
  }

  /** A new product gets the form's fields, the documented defaults, and a fresh id. */
  lemma AddProductDefaults(t: Tables, u: int, f: ProductForm)
    requires AddProductOn(t, u, f).1.Ok?
    ensures var ps' := AddProductOn(t, u, f).0.products;
      var p := ps'[|ps'| - 1];
      && |ps'| == |t.products| + 1
      && p.id == FreshKey(t.products, ProductId)
      && p.name == f.name.value && p.unit == f.unit && p.image == None && p.category == "Dairy"
      && (f.price.Missing? ==> p.price == 0)
      && (f.price.Value? ==> p.price == f.price.v)
      && (f.originalPrice.Missing? ==> p.originalPrice == p.price)
      && (f.originalPrice.Value? ==> p.originalPrice == f.originalPrice.v)
      && (f.stock.Missing? ==> p.stock == 0)
      && (f.stock.Value? ==> p.stock == f.stock.v)
      && (p.originalPrice <= p.price ==> p.discountPercent == 0)
  {
    var p := NewProduct(t.products, f).value;
    assert AddProductOn(t, u, f).0.products == t.products + [p];
  }

  lemma AddProductKeepsValid(t: Tables, u: int, f: ProductForm)
    requires Valid(t)
    ensures Valid(AddProductOn(t, u, f).0)
  {
    var res := AddProductOn(t, u, f);
    if res.1.Ok? {
      AppendAscending(t.products, ProductId, NewProduct(t.products, f).value);
    }
  }

  method AddProduct(db: Store, u: int, f: ProductForm) returns (r: Reply<string>)
    requires Valid(db.Snapshot())
    modifies db
    ensures (db.Snapshot(), r) == AddProductOn(old(db.Snapshot()), u, f)
    ensures Valid(db.Snapshot())
  {
    AddProductKeepsValid(db.Snapshot(), u, f);
    var refusal := AdminRefusal(db.users, u);
    if refusal.Some? {
      return refusal.value;
    }
    var product := NewProduct(db.products, f);
    if product.None? || f.name.None? {
      return Err(500, ServerError);
    }
    db.Commit(db.Snapshot().(products := db.products + [product.value]));
    return Ok(201, "Product added successfully");
  }

  // ---------------------------------------------------------------
  // PUT /api/products/<id>
  // ---------------------------------------------------------------

  /** The product as update_product rewrites it: absent numbers keep their value, name and unit are always replaced. */
  function Edited(p: Product, f: ProductForm): (r: Option<Product>)
    ensures r.Some? ==> r.value.id == p.id && r.value.image == p.image && r.value.category == p.category
    ensures r.Some? <==>
      && !f.price.Unparsable? && !f.originalPrice.Unparsable? && !f.stock.Unparsable?
      && DiscountOf(OrDefault(f.price, p.price), OrDefault(f.originalPrice, p.originalPrice)).Some?
  {
    if f.price.Unparsable? || f.originalPrice.Unparsable? || f.stock.Unparsable? then None
    else
      var price := OrDefault(f.price, p.price);
      var original := OrDefault(f.originalPrice, p.originalPrice);
      match DiscountOf(price, original)
      case None => None
      case Some(d) =>
        Some(p.(name := if f.name.Some? then f.name.value else "", price := price, originalPrice := original,
                discountPercent := d, unit := f.unit, stock := OrDefault(f.stock, p.stock)))
  }

  /** The effect of update_product on product `id`. */
  function UpdateProductOn(t: Tables, u: int, id: int, f: ProductForm): (res: (Tables, Reply<string>))
    ensures res.1.Err? ==> res.0 == t
    ensures !IsAdmin(t.users, u) ==> res.1 == AdminRefusal(t.users, u).value
    ensures IsAdmin(t.users, u) && ProductIndex(t.products, id).None? ==> res.1 == Err(404, NotFound)
    ensures res.1.Ok? <==>
      && IsAdmin(t.users, u) && ProductIndex(t.products, id).Some? && f.name.Some?
      && Edited(t.products[ProductIndex(t.products, id).value], f).Some?
    ensures res.1.Ok? ==> res.1 == Ok(200, "Product updated successfully")
    ensures res.1.Ok? ==>
      var k := ProductIndex(t.products, id).value;
      res.0 == t.(products := t.products[k := Edited(t.products[k], f).value])
  {
    match AdminRefusal(t.users, u)
    case Some(e) => (t, e)
    case None =>
      match ProductIndex(t.products, id)
      case None => (t, Err(404, NotFound))
      case Some(k) =>
        match Edited(t.products[k], f)
        case None => (t, Err(500, ServerError))
        case Some(p) =>
          if f.name.None? then (t, Err(500, ServerError))
          else (t.(products := t.products[k := p]), Ok(200, "Product updated successfully"))
  }

  /** Fields the form leaves out keep their values; the discount is recomputed from the new prices. */
  lemma UpdateProductKeepsAbsentFields(t: Tables, u: int, id: int, f: ProductForm)
    requires UpdateProductOn(t, u, id, f).1.Ok?
    ensures var k := ProductIndex(t.products, id).value;
      var before := t.products[k];
      var after := UpdateProductOn(t, u, id, f).0.products[k];
      && after.id == id
      && (f.price.Missing? ==> after.price == before.price)
      && (f.originalPrice.Missing? ==> after.originalPrice == before.originalPrice)
      && (f.stock.Missing? ==> after.stock == before.stock)
      && (f.stock.Value? ==> after.stock == f.stock.v)
      && after.name == f.name.value && after.image == before.image
      && (after.originalPrice <= after.price ==> after.discountPercent == 0)
  {
  }

  lemma UpdateProductKeepsValid(t: Tables, u: int, id: int, f: ProductForm)
    requires Valid(t)
    ensures Valid(UpdateProductOn(t, u, id, f).0)
  {
    var res := UpdateProductOn(t, u, id, f);
    if res.1.Ok? {
      var k := ProductIndex(t.products, id).value;
      assert forall i :: 0 <= i < |t.products| ==> res.0.products[i].id == t.products[i].id;
    }
  }

  method UpdateProduct(db: Store, u: int, id: int, f: ProductForm) returns (r: Reply<string>)
    requires Valid(db.Snapshot())
    modifies db
    ensures (db.Snapshot(), r) == UpdateProductOn(old(db.Snapshot()), u, id, f)
    ensures Valid(db.Snapshot())
  {
    UpdateProductKeepsValid(db.Snapshot(), u, id, f);
    var refusal := AdminRefusal(db.users, u);
    if refusal.Some? {
      return refusal.value;
    }
    var k := ProductIndex(db.products, id);
    if k.None? {
      return Err(404, NotFound);
    }
    var edited := Edited(db.products[k.value], f);
    if edited.None? || f.name.None? {
      return Err(500, ServerError);
    }
    db.Commit(db.Snapshot().(products := db.products[k.value := edited.value]));
    return Ok(200, "Product updated successfully");
  }

  // ---------------------------------------------------------------
  // DELETE /api/products/<id>
  // ---------------------------------------------------------------

  /** A cart line or wishlist row still names the product: deleting it nulls their NOT NULL column. */
  predicate Referenced(t: Tables, id: int) {
    (exists l :: l in t.carts && l.productId == id) || (exists w :: w in t.wishlist && w.productId == id)
  }

  function OtherProduct(id: int): Product -> bool {
    (p: Product) => p.id != id
  }

  /** The effect of delete_product. */
  function DeleteProductOn(t: Tables, u: int, id: int): (res: (Tables, Reply<string>))
    ensures res.1.Err? ==> res.0 == t
    ensures !IsAdmin(t.users, u) ==> res.1 == AdminRefusal(t.users, u).value
    ensures IsAdmin(t.users, u) && ProductIndex(t.products, id).None? ==> res.1 == Err(404, NotFound)
    ensures IsAdmin(t.users, u) && ProductIndex(t.products, id).Some? && Referenced(t, id) ==> res.1 == Err(500, ServerError)
    ensures res.1.Ok? <==> IsAdmin(t.users, u) && ProductIndex(t.products, id).Some? && !Referenced(t, id)
    ensures res.1.Ok? ==> res.1 == Ok(200, "Product deleted successfully")
    ensures res.1.Ok? ==> res.0 == t.(products := res.0.products)
    ensures res.1.Ok? ==> forall p :: p in res.0.products <==> p in t.products && p.id != id
  {
    match AdminRefusal(t.users, u)
    case Some(e) => (t, e)
    case None =>
      match ProductIndex(t.products, id)
      case None => (t, Err(404, NotFound))
      case Some(_) =>
        if Referenced(t, id) then (t, Err(500, ServerError))
        else (t.(products := Filter(t.products, OtherProduct(id))), Ok(200, "Product deleted successfully"))
  }

  /** After a delete, the catalogue no longer lists the product, and order items still naming it remain. */
  lemma DeleteProductGone(t: Tables, u: int, id: int)
    requires DeleteProductOn(t, u, id).1.Ok?
    ensures var t' := DeleteProductOn(t, u, id).0;
      && FindProduct(t'.products, id).None?
      && t'.items == t.items
      && |t'.products| < |t.products|
  {
    var t' := DeleteProductOn(t, u, id).0;
    var k := ProductIndex(t.products, id).value;
    assert t.products[k] in t.products && t.products[k] !in t'.products;
    FilterShorter(t.products, OtherProduct(id), k);
  }

  lemma DeleteProductKeepsValid(t: Tables, u: int, id: int)
    requires Valid(t)
    ensures Valid(DeleteProductOn(t, u, id).0)
  {
    var res := DeleteProductOn(t, u, id);
    if res.1.Ok? {
      FilterAscending(t.products, OtherProduct(id), ProductId);
    }
  }

  method DeleteProduct(db: Store, u: int, id: int) returns (r: Reply<string>)
    requires Valid(db.Snapshot())
    modifies db
    ensures (db.Snapshot(), r) == DeleteProductOn(old(db.Snapshot()), u, id)
    ensures Valid(db.Snapshot())
  {
    DeleteProductKeepsValid(db.Snapshot(), u, id);
    var refusal := AdminRefusal(db.users, u);
    if refusal.Some? {
      return refusal.value;
    }
    var k := ProductIndex(db.products, id);
    if k.None? {
      return Err(404, NotFound);
    }
    if Referenced(db.Snapshot(), id) {
      return Err(500, ServerError);
    }
    db.products := Filter(db.products, OtherProduct(id));
    return Ok(200, "Product deleted successfully");
  }

  // ---------------------------------------------------------------
  // PUT /api/products/<id>/stock
  // ---------------------------------------------------------------

  /** The product summary update_stock answers with. */
  datatype StockView = StockView(id: int, name: string, stock: int, price: int, originalPrice: int, discountPercent: int)

  datatype StockUpdated = StockUpdated(message: string, product: StockView)

  /** The effect of update_stock; `stock` is the body's "stock" (Missing also when there is no body). */
  function UpdateStockOn(t: Tables, u: int, id: int, stock: Input<int>): (res: (Tables, Reply<StockUpdated>))
    ensures res.1.Err? ==> res.0 == t
    ensures !IsAdmin(t.users, u) ==> res.1 == Err(403, "Admin access required")
    ensures IsAdmin(t.users, u) && ProductIndex(t.products, id).None? ==> res.1 == Err(404, NotFound)
    ensures IsAdmin(t.users, u) && ProductIndex(t.products, id).Some? ==>
      && (stock.Missing? ==> res.1 == Err(400, "Stock value required"))
      && (stock.Unparsable? ==> res.1 == Err(400, "Invalid stock value"))
      && (stock.Value? && stock.v < 0 ==> res.1 == Err(400, "Stock cannot be negative"))
    ensures res.1.Ok? <==>
      IsAdmin(t.users, u) && ProductIndex(t.products, id).Some? && stock.Value? && stock.v >= 0
    ensures res.1.Ok? ==>
      var k := ProductIndex(t.products, id).value;
      && res.0 == t.(products := t.products[k := t.products[k].(stock := stock.v)])
      && res.1.code == 200 && res.1.body.product.id == id && res.1.body.product.stock == stock.v
  {
    if !IsAdmin(t.users, u) then (t, Err(403, "Admin access required"))
    else match ProductIndex(t.products, id)
      case None => (t, Err(404, NotFound))
      case Some(k) =>
        match stock
        case Missing => (t, Err(400, "Stock value required"))
        case Unparsable => (t, Err(400, "Invalid stock value"))
        case Value(n) =>
          if n < 0 then (t, Err(400, "Stock cannot be negative"))
          else
            var p := t.products[k].(stock := n);
            (t.(products := t.products[k := p]),
             Ok(200, StockUpdated("Stock updated successfully",
                                  StockView(p.id, p.name, p.stock, p.price, p.originalPrice, p.discountPercent))))
  }

  /** A stock change never makes a stock negative and touches no other product. */
  lemma UpdateStockKeepsStockNonNegative(t: Tables, u: int, id: int, stock: Input<int>)
    requires forall k :: 0 <= k < |t.products| ==> t.products[k].stock >= 0
    ensures var ps' := UpdateStockOn(t, u, id, stock).0.products;
      && |ps'| == |t.products|
      && (forall k :: 0 <= k < |ps'| ==> ps'[k].stock >= 0)
      && (forall k :: 0 <= k < |ps'| && ps'[k].id != id ==> ps'[k] == t.products[k])
  {
  }

  lemma UpdateStockKeepsValid(t: Tables, u: int, id: int, stock: Input<int>)
    requires Valid(t)
    ensures Valid(UpdateStockOn(t, u, id, stock).0)
  {
    var res := UpdateStockOn(t, u, id, stock);
    if res.1.Ok? {
      assert forall i :: 0 <= i < |t.products| ==> res.0.products[i].id == t.products[i].id;
    }
  }

  method UpdateStock(db: Store, u: int, id: int, stock: Input<int>) returns (r: Reply<StockUpdated>)
    requires Valid(db.Snapshot())
    modifies db
    ensures (db.Snapshot(), r) == UpdateStockOn(old(db.Snapshot()), u, id, stock)
    ensures Valid(db.Snapshot())
  {
    UpdateStockKeepsValid(db.Snapshot(), u, id, stock);
    if !IsAdmin(db.users, u) {
      return Err(403, "Admin access required");
    }
    var k := ProductIndex(db.products, id);
    if k.None? {
      return Err(404, NotFound);
    }
    if stock.Missing? {
      return Err(400, "Stock value required");
    }
    if stock.Unparsable? {
      return Err(400, "Invalid stock value");
    }
    if stock.v < 0 {
      return Err(400, "Stock cannot be negative");
    }
    var p := db.products[k.value].(stock := stock.v);
    db.Commit(db.Snapshot().(products := db.products[k.value := p]));
    return Ok(200, StockUpdated("Stock updated successfully",
                                StockView(p.id, p.name, p.stock, p.price, p.originalPrice, p.discountPercent)));
  }
}
