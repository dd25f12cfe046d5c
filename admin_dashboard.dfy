/**
  The admin dashboard (frontend/src/pages/AdminDashboard.js): the product and
  order lists with their search and status filter, the counters above them,
  the order-status select and the stock field, and the product form.

  Prices in the form are the text of its inputs; calculateFinalPrice, which
  works in floating point, is passed in as a function and not modelled.
*/
module AdminDashboard {
  import opened Common
  import opened Models
  import opened Db
  import opened ClientData
  import opened ApiClient
  import opened ProductRoutes
  import opened OrderRoutes

  /** normalizeProducts: the body if it is an array, else its "products" member if that is one, else []. */
  function NormalizeProducts(data: Json<ProductView>): (r: seq<ProductView>)
    ensures data.Arr? ==> r == data.items
    ensures !data.Arr? && Member(data, "products").Arr? ==> r == Member(data, "products").items
    ensures !data.Arr? && !Member(data, "products").Arr? ==> r == []
  {
    if data.Arr? then data.items else ArrayOr(Member(data, "products"))
  }

  /** The product search's test: the lower-cased name contains the query. */
  function NameMatches(q: string): ProductView -> bool {
    (p: ProductView) => Contains(Lower(p.name), q)
  }

  /** filteredProducts: all products for a blank query, else those whose name contains the trimmed, lower-cased query, in order. */
  function FilteredProducts(ps: seq<ProductView>, query: string): (r: seq<ProductView>)
    ensures Trim(query) == "" ==> r == ps
    ensures forall p :: p in r <==> p in ps && Contains(Lower(p.name), Lower(Trim(query)))
    ensures |r| <= |ps|
  {
    var q := Lower(Trim(query));
    if q == "" then
      forall p | p in ps ensures Contains(Lower(p.name), q) {
        ContainsEmpty(Lower(p.name));
      }
      ps
    else Filter(ps, NameMatches(q))
  }

  function HasStatus(status: string): AdminOrderRow -> bool {
    (o: AdminOrderRow) => o.status == status
  }

  /** filteredOrders: every order for an empty filter, else the orders with exactly that status, in order. */
  function FilteredOrders(os: seq<AdminOrderRow>, filter: string): (r: seq<AdminOrderRow>)
    ensures filter == "" ==> r == os
    ensures filter != "" ==> forall o :: o in r <==> o in os && o.status == filter
    ensures |r| <= |os|
  {
    if filter == "" then os else Filter(os, HasStatus(filter))
  }

  /** The counters; revenue, a floating-point sum, is not modelled. */
  datatype Stats = Stats(products: nat, totalOrders: nat, pending: nat, delivered: nat)

  function StatsOf(ps: seq<ProductView>, os: seq<AdminOrderRow>): (s: Stats)
    ensures s.products == |ps| && s.totalOrders == |os|
    ensures s.pending == |FilteredOrders(os, "Pending")| && s.delivered == |FilteredOrders(os, "Delivered")|
  {
    Stats(|ps|, |os|, |Filter(os, HasStatus("Pending"))|, |Filter(os, HasStatus("Delivered"))|)
  }

  lemma {:induction false} DisjointFilters<R>(t: seq<R>, a: R -> bool, b: R -> bool)
    requires forall i :: 0 <= i < |t| ==> !(a(t[i]) && b(t[i]))
    ensures |Filter(t, a)| + |Filter(t, b)| <= |t|
  {
    if t != [] {
      DisjointFilters(t[1..], a, b);
    }
  }

  /** No order is counted both pending and delivered. */
  lemma StatsBounded(ps: seq<ProductView>, os: seq<AdminOrderRow>)
    ensures StatsOf(ps, os).pending + StatsOf(ps, os).delivered <= StatsOf(ps, os).totalOrders
  {
    DisjointFilters(os, HasStatus("Pending"), HasStatus("Delivered"));
  }

  /** `prev.map(o => o.id === id ? { ...o, status } : o)` */
  function WithStatus(os: seq<AdminOrderRow>, id: int, status: string): (r: seq<AdminOrderRow>)
    ensures |r| == |os|
    ensures forall i :: 0 <= i < |os| ==> r[i] == if os[i].id == id then os[i].(status := status) else os[i]
  {
    seq(|os|, i requires 0 <= i < |os| => if os[i].id == id then os[i].(status := status) else os[i])
  }

  /**
    After PUT /api/orders/<id>/status succeeds, the list the dashboard keeps by
    updating the row itself is the list GET /api/orders/all would now return.
  */
  lemma StatusUpdateAgreesWithServer(t: Tables, u: int, id: int, status: string)
    requires Valid(t)
    requires UpdateOrderStatusOn(t, u, id, Some(status)).1.Ok?
    ensures AllOrdersOn(UpdateOrderStatusOn(t, u, id, Some(status)).0.orders) == WithStatus(AllOrdersOn(t.orders), id, status)
  {
    var k := OrderIndex(t.orders, id).value;
    RestatusAtIndex(t.orders, k, status);
    assert UpdateOrderStatusOn(t, u, id, Some(status)).0.orders == Restatus(t.orders, id, status);
    ListingRestatus(t.orders, id, status);
  }

  /** Listing the orders after giving one id a status is the listing with that row's status set. */
  lemma ListingRestatus(os: seq<Order>, id: int, status: string)
    ensures AllOrdersOn(Restatus(os, id, status)) == WithStatus(AllOrdersOn(os), id, status)
  {
    var os' := Restatus(os, id, status);
    var l, r := AllOrdersOn(os'), WithStatus(AllOrdersOn(os), id, status);
    forall i | 0 <= i < |os| ensures l[i] == r[i] {
      assert os'[|os| - 1 - i] == if os[|os| - 1 - i].id == id then os[|os| - 1 - i].(status := status) else os[|os| - 1 - i];
    }
  }

  /**
    The stock the server stores for a number the stock field lets through:
    `int()` truncates toward zero, which for a number that is not negative is
    its floor, so the server never refuses it as negative.
  */
  lemma StockFieldNeverRefusedAsNegative(t: Tables, u: int, id: int, s: real)
    requires s >= 0.0
    requires IsAdmin(t.users, u) && ProductIndex(t.products, id).Some?
    ensures UpdateStockOn(t, u, id, Value(s.Floor)).1.Ok?
    ensures UpdateStockOn(t, u, id, Value(s.Floor)).1.body.product.stock == s.Floor
  {
    assert s.Floor >= 0;
  }

  /** The product form's fields, as the text of its inputs; `image` is whether a file is chosen. */
  datatype Form = Form(name: string, originalPrice: string, discountPercent: string, price: string, unit: string, stock: string, image: bool)

  const EmptyForm := Form("", "", "", "", "", "", false)

  datatype FormField = NameField | OriginalPriceField | DiscountPercentField | PriceField | UnitField | StockField

  /** What handleSubmit appends to the multipart body. */
  datatype Submitted = Submitted(name: string, originalPrice: string, discountPercent: string, price: string, unit: string, stock: string, image: bool)

  /** The request handleSubmit makes: a PUT of the edited product, or a POST of a new one. */
  datatype SaveRequest = Put(id: int, body: Submitted) | Post(body: Submitted)

  /** The form as openEdit fills it from a listed product. */
  function FormOf(p: ProductView): (f: Form)
    ensures f.name == p.name && f.price == IntToString(p.price) && f.stock == IntToString(p.stock)
    ensures f.originalPrice == IntToString(p.originalPrice) && f.discountPercent == IntToString(p.discountPercent)
    ensures f.unit == (if p.unit.Some? then p.unit.value else "") && !f.image
  {
    Form(p.name, IntToString(p.originalPrice), IntToString(p.discountPercent), IntToString(p.price),
         if p.unit.Some? then p.unit.value else "", IntToString(p.stock), false)
  }

  /** The body handleSubmit builds: `discount_percent || 0` and `price || calculateFinalPrice(...)`. */
  function SubmittedOf(f: Form, finalPrice: (string, string) -> string): (s: Submitted)
    ensures s.discountPercent == OrElse(f.discountPercent, "0")
    ensures s.price == OrElse(f.price, finalPrice(f.originalPrice, f.discountPercent))
    ensures s.name == f.name && s.originalPrice == f.originalPrice && s.unit == f.unit && s.stock == f.stock && s.image == f.image
  {
    Submitted(f.name, f.originalPrice, OrElse(f.discountPercent, "0"), OrElse(f.price, finalPrice(f.originalPrice, f.discountPercent)),
              f.unit, f.stock, f.image)
  }

  class Dashboard {
    var products: seq<ProductView>
    var orders: seq<AdminOrderRow>
    var editingId: Option<int>
    var loadingProducts: bool
    var loadingOrders: bool
    var saving: bool
    var err: string
    var productQuery: string
    var orderStatusFilter: string
    var modalOpen: bool
    var form: Form

    constructor ()
      ensures products == [] && orders == [] && editingId.None? && form == EmptyForm
      ensures loadingProducts && loadingOrders && !saving && err == "" && !modalOpen
      ensures productQuery == "" && orderStatusFilter == ""
    {
      products, orders, editingId := [], [], None;
      loadingProducts, loadingOrders, saving, err := true, true, false, "";
      productQuery, orderStatusFilter, modalOpen, form := "", "", false, EmptyForm;
    }

    /** The counters over the lists as they stand. */
    function CurrentStats(): (s: Stats)
      reads this
      ensures s.pending + s.delivered <= s.totalOrders
    {
      StatsBounded(products, orders);
      StatsOf(products, orders)
    }

    /** fetchProducts */
    method FetchProducts(outcome: Fetch<Json<ProductView>>)
      modifies this
      ensures !loadingProducts
      ensures outcome.Fetched? ==> products == NormalizeProducts(outcome.body) && err == ""
      ensures outcome.FetchFailed? ==> products == old(products) && err == MessageOrError(outcome.failure, "Failed to load products")
      ensures orders == old(orders) && form == old(form) && editingId == old(editingId) && saving == old(saving)
      ensures loadingOrders == old(loadingOrders) && modalOpen == old(modalOpen)
    {
      err := "";
      match outcome {
        case Fetched(data) => products := NormalizeProducts(data);
        case FetchFailed(f) => err := MessageOrError(f, "Failed to load products");
      }
      loadingProducts := false;
    }

    /** fetchOrders */
    method FetchOrders(outcome: Fetch<Json<AdminOrderRow>>)
      modifies this
      ensures !loadingOrders
      ensures outcome.Fetched? ==> orders == ArrayOr(outcome.body) && err == ""
      ensures outcome.FetchFailed? ==> orders == old(orders) && err == MessageOrError(outcome.failure, "Failed to load orders")
      ensures products == old(products) && form == old(form) && editingId == old(editingId) && saving == old(saving)
      ensures loadingProducts == old(loadingProducts) && modalOpen == old(modalOpen)
    {
      err := "";
      match outcome {
        case Fetched(data) => orders := ArrayOr(data);
        case FetchFailed(f) => err := MessageOrError(f, "Failed to load orders");
      }
      loadingOrders := false;
    }

    /** updateStatus: the row changes only once the PUT has succeeded. */
    method UpdateStatus(id: int, status: string, outcome: Option<Failure>) returns (alert: Option<string>)
      modifies this
      ensures outcome.None? ==> orders == WithStatus(old(orders), id, status) && alert.None?
      ensures outcome.Some? ==> orders == old(orders) && alert == Some(MessageOrError(outcome.value, "Failed to update order status"))
      ensures products == old(products) && form == old(form) && err == old(err)
    {
      if outcome.None? {
        orders := WithStatus(orders, id, status);
        alert := None;
      } else {
        alert := Some(MessageOrError(outcome.value, "Failed to update order status"));
      }
    }

    /**
      updateStock, on leaving a stock field. `number` is `Number(stock)`, None
      when it is NaN; NaN or a negative number sends nothing. A success reloads
      the products (the reload's outcome is given).
    */
    method UpdateStock(id: int, number: Option<real>, outcome: Option<Failure>, reload: Fetch<Json<ProductView>>)
      returns (sent: Option<real>, alert: Option<string>)
      modifies this
      ensures sent.Some? <==> number.Some? && number.value >= 0.0
      ensures sent.Some? ==> sent == number
      ensures sent.None? ==> alert == Some("Stock must be a valid number") && products == old(products) && err == old(err)
      ensures sent.Some? && outcome.None? ==> alert.None? && products == (if reload.Fetched? then NormalizeProducts(reload.body) else old(products))
      ensures sent.Some? && outcome.None? ==> err == (if reload.Fetched? then "" else MessageOrError(reload.failure, "Failed to load products"))
      ensures sent.Some? && outcome.Some? ==> products == old(products) && err == old(err)
      ensures sent.Some? && outcome.Some? ==> alert == Some(MessageOrError(outcome.value, "Failed to update stock"))
      ensures orders == old(orders) && form == old(form) && editingId == old(editingId)
    {
      if number.None? || number.value < 0.0 {
        return None, Some("Stock must be a valid number");
      }
      sent := number;
      if outcome.None? {
        FetchProducts(reload);
        alert := None;
      } else {
        alert := Some(MessageOrError(outcome.value, "Failed to update stock"));
      }
    }

    /** handleChange for a text field: the field takes the value, and the price is recomputed only when the original price or the discount changed. */
    method HandleChange(field: FormField, value: string, finalPrice: (string, string) -> string)
      modifies this
      ensures form.name == (if field == NameField then value else old(form.name))
      ensures form.originalPrice == (if field == OriginalPriceField then value else old(form.originalPrice))
      ensures form.discountPercent == (if field == DiscountPercentField then value else old(form.discountPercent))
      ensures form.unit == (if field == UnitField then value else old(form.unit))
      ensures form.stock == (if field == StockField then value else old(form.stock))
      ensures form.image == old(form.image)
      ensures field in {OriginalPriceField, DiscountPercentField} ==> form.price == finalPrice(form.originalPrice, form.discountPercent)
      ensures field == PriceField ==> form.price == value
      ensures field !in {OriginalPriceField, DiscountPercentField, PriceField} ==> form.price == old(form.price)
      ensures products == old(products) && orders == old(orders) && editingId == old(editingId)
    {
      match field {
        case NameField => form := form.(name := value);
        case OriginalPriceField =>
          form := form.(originalPrice := value, price := finalPrice(value, form.discountPercent));
        case DiscountPercentField =>
          form := form.(discountPercent := value, price := finalPrice(form.originalPrice, value));
        case PriceField => form := form.(price := value);
        case UnitField => form := form.(unit := value);
        case StockField => form := form.(stock := value);
      }
    }

    /** handleChange for the file input. */
    method ChooseImage(chosen: bool)
      modifies this
      ensures form == old(form).(image := chosen)
      ensures products == old(products) && orders == old(orders) && editingId == old(editingId)
    {
      form := form.(image := chosen);
    }

    /** resetForm: every field empty, no file, and no product being edited. */
    method ResetForm()
      modifies this
      ensures form == EmptyForm && editingId.None?
      ensures products == old(products) && orders == old(orders) && modalOpen == old(modalOpen) && err == old(err)
    {
      form := EmptyForm;
      editingId := None;
    }

    /** openCreate */
    method OpenCreate()
      modifies this
      ensures form == EmptyForm && editingId.None? && modalOpen
      ensures products == old(products) && orders == old(orders) && err == old(err)
    {
      ResetForm();
      modalOpen := true;
    }

    /** openEdit */
    method OpenEdit(p: ProductView)
      modifies this
      ensures editingId == Some(p.id) && form == FormOf(p) && modalOpen
      ensures products == old(products) && orders == old(orders) && err == old(err)
    {
      editingId := Some(p.id);
      form := FormOf(p);
      modalOpen := true;
    }

    /**
      handleSubmit: a PUT when a (truthy) product id is being edited, else a
      POST. Success closes and empties the form and reloads the products;
      failure keeps the form open with the reply's words.
    */
    method HandleSubmit(finalPrice: (string, string) -> string, outcome: Option<Failure>, reload: Fetch<Json<ProductView>>)
      returns (request: SaveRequest)
      modifies this
      ensures var body := SubmittedOf(old(form), finalPrice);
        request == if old(editingId).Some? && old(editingId).value != 0 then Put(old(editingId).value, body) else Post(body)
      ensures !saving
      ensures outcome.None? ==> !modalOpen && form == EmptyForm && editingId.None?
      ensures outcome.None? ==> products == (if reload.Fetched? then NormalizeProducts(reload.body) else old(products))
      ensures outcome.None? ==> err == (if reload.Fetched? then "" else MessageOrError(reload.failure, "Failed to load products"))
      ensures outcome.Some? ==> form == old(form) && editingId == old(editingId) && modalOpen == old(modalOpen)
      ensures outcome.Some? ==> products == old(products) && err == MessageOrError(outcome.value, "Failed to save product")
      ensures orders == old(orders)
    {
      err := "";
      saving := true;
      var body := SubmittedOf(form, finalPrice);
      if editingId.Some? && editingId.value != 0 {
        request := Put(editingId.value, body);
      } else {
        request := Post(body);
      }
      if outcome.None? {
        modalOpen := false;
        editingId := None;
        ResetForm();
        FetchProducts(reload);
      } else {
        err := MessageOrError(outcome.value, "Failed to save product");
      }
      saving := false;
    }

    /** handleDelete: nothing without confirmation; a success reloads the products. */
    method HandleDelete(id: int, confirmed: bool, outcome: Option<Failure>, reload: Fetch<Json<ProductView>>)
      returns (path: Option<string>, alert: Option<string>)
      modifies this
      ensures path.Some? <==> confirmed
      ensures path.Some? ==> path.value == "/products/" + IntToString(id)
      ensures !confirmed || outcome.Some? ==> products == old(products) && err == old(err)
      ensures confirmed && outcome.None? ==> products == (if reload.Fetched? then NormalizeProducts(reload.body) else old(products))
      ensures confirmed && outcome.None? ==> err == (if reload.Fetched? then "" else MessageOrError(reload.failure, "Failed to load products"))
      ensures alert == (if confirmed && outcome.Some? then Some(MessageOrError(outcome.value, "Failed to delete product")) else None)
      ensures orders == old(orders) && form == old(form) && editingId == old(editingId)
    {
      if !confirmed {
        return None, None;
      }
      path := Some("/products/" + IntToString(id));
      if outcome.None? {
        FetchProducts(reload);
        alert := None;
      } else {
        alert := Some(MessageOrError(outcome.value, "Failed to delete product"));
      }
    }
  }
}
