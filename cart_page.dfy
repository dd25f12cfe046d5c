/**
  The cart and checkout page (frontend/src/pages/Cart.js): the cart as GET
  /api/cart sends it, the quantity buttons that recompute the cart locally,
  the coupon, the billing form and its validation, the checkout steps of an
  online payment, the order placement, and the wishlist shown beside the cart.

  Amounts the offer endpoint returns are floating-point numbers, modelled as
  reals; cart totals are whole rupees.
*/
module CartPage {
  import opened Common
  import opened Models
  import opened Db
  import opened ClientData
  import opened ApiClient
  import opened CartRoutes
  import opened OrderRoutes
  import opened OfferRoutes
  import opened WishlistRoutes
  import Layout
  import WishlistPage

  /** The body of GET /api/cart. */
  datatype CartBody = CartBody(items: seq<CartEntry>, total: int)

  /** itemCount: the units in the cart, a falsy quantity counting as one. */
  function ItemCountOf(items: seq<CartEntry>): (n: int)
    ensures (forall i :: 0 <= i < |items| ==> items[i].quantity >= 1) ==> n == Sum(Layout.Quantities(items))
  {
    var qs := Layout.Quantities(items);
    if forall i :: 0 <= i < |items| ==> items[i].quantity >= 1 then
      assert forall i :: 0 <= i < |qs| ==> qs[i] != 0;
      ItemCountIsSum(qs);
      ItemCount(qs)
    else ItemCount(qs)
  }

  /** payableAmount: the coupon's final total while a discount is in force, else the cart's total. */
  function Payable(discount: real, finalTotal: real, total: int): (r: real)
    ensures discount != 0.0 ==> r == finalTotal
    ensures discount == 0.0 ==> r == total as real
  {
    if discount != 0.0 then finalTotal else total as real
  }

  // ---------------------------------------------------------------
  // The quantity buttons
  // ---------------------------------------------------------------

  /** The item with this id at the new quantity, its subtotal recomputed from its price. */
  function WithQuantity(id: int, q: int): CartEntry -> CartEntry {
    (e: CartEntry) => if e.id == id then e.(quantity := q, subtotal := e.price * q) else e
  }

  /** The map updateQty applies to the items. */
  function SetQuantity(items: seq<CartEntry>, id: int, q: int): (r: seq<CartEntry>)
    ensures |r| == |items|
    ensures forall i :: 0 <= i < |items| ==> r[i] == WithQuantity(id, q)(items[i])
  {
    seq(|items|, i requires 0 <= i < |items| => WithQuantity(id, q)(items[i]))
  }

  /** The "−" button's `disabled`: its item is being updated, or it holds one unit or fewer. */
  predicate MinusDisabled(e: CartEntry, qtyLoadingId: Option<int>) {
    qtyLoadingId == Some(e.id) || e.quantity <= 1
  }

  // ---------------------------------------------------------------
  // Billing
  // ---------------------------------------------------------------

  datatype BillingKey = NameKey | PhoneKey | AddressKey | CityKey | PincodeKey | PaymentKey

  /** The form's keys in the order Object.keys gives them. */
  const AllKeys: seq<BillingKey> := [NameKey, PhoneKey, AddressKey, CityKey, PincodeKey, PaymentKey]

  datatype BillingForm = BillingForm(name: string, phone: string, address: string, city: string, pincode: string, paymentMethod: string)

  const InitialBilling := BillingForm("", "", "", "", "", "COD")

  function Get(f: BillingForm, k: BillingKey): string {
    match k
    case NameKey => f.name
    case PhoneKey => f.phone
    case AddressKey => f.address
    case CityKey => f.city
    case PincodeKey => f.pincode
    case PaymentKey => f.paymentMethod
  }

  function Set(f: BillingForm, k: BillingKey, v: string): (g: BillingForm)
    ensures Get(g, k) == v && forall j :: j != k ==> Get(g, j) == Get(f, j)
  {
    match k
    case NameKey => f.(name := v)
    case PhoneKey => f.(phone := v)
    case AddressKey => f.(address := v)
    case CityKey => f.(city := v)
    case PincodeKey => f.(pincode := v)
    case PaymentKey => f.(paymentMethod := v)
  }

  /** `!value || value.trim() === ""` */
  predicate IsBlank(v: string) {
    v == "" || Trim(v) == ""
  }

  const Required := "This field is required"
  const PhoneMessage := "Enter valid 10 digit phone number"
  const PincodeMessage := "Enter valid 6 digit pincode"

  /** The message validateBilling leaves for one key: the format messages override the required one. */
  function ErrorFor(f: BillingForm, k: BillingKey): Option<string> {
    if k == PhoneKey && f.phone != "" && !ExactlyDigits(f.phone, 10) then Some(PhoneMessage)
    else if k == PincodeKey && f.pincode != "" && !ExactlyDigits(f.pincode, 6) then Some(PincodeMessage)
    else if IsBlank(Get(f, k)) then Some(Required)
    else None
  }

  /** The errors validateBilling reports, one per key that has one. */
  function BillingErrors(f: BillingForm): (errors: map<BillingKey, string>)
    ensures forall k :: k in errors <==> ErrorFor(f, k).Some?
    ensures forall k :: k in errors ==> errors[k] == ErrorFor(f, k).value
  {
    map k | k in AllKeys && ErrorFor(f, k).Some? :: ErrorFor(f, k).value
  }

  /** The errors of the required check alone, over the given keys. */
  function RequiredErrors(f: BillingForm, keys: seq<BillingKey>): map<BillingKey, string> {
    map k | k in keys && IsBlank(Get(f, k)) :: Required
  }

  /** The required check on one more key. */
  lemma RequiredErrorsStep(f: BillingForm, keys: seq<BillingKey>, i: nat)
    requires i < |keys|
    ensures RequiredErrors(f, keys[..i + 1]) ==
      if IsBlank(Get(f, keys[i])) then RequiredErrors(f, keys[..i])[keys[i] := Required] else RequiredErrors(f, keys[..i])
  {
    assert keys[..i + 1] == keys[..i] + [keys[i]];
  }

  /** The two format checks of validateBilling, each overriding what the required check left for its key. */
  function WithFormatChecks(f: BillingForm, e: map<BillingKey, string>): map<BillingKey, string> {
    var e' := if f.phone != "" && !ExactlyDigits(f.phone, 10) then e[PhoneKey := PhoneMessage] else e;
    if f.pincode != "" && !ExactlyDigits(f.pincode, 6) then e'[PincodeKey := PincodeMessage] else e'
  }

  lemma RequiredAt(f: BillingForm, k: BillingKey)
    ensures k in RequiredErrors(f, AllKeys) <==> IsBlank(Get(f, k))
    ensures k in RequiredErrors(f, AllKeys) ==> RequiredErrors(f, AllKeys)[k] == Required
  {
    assert k == AllKeys[0] || k == AllKeys[1] || k == AllKeys[2] || k == AllKeys[3] || k == AllKeys[4] || k == AllKeys[5];
  }

  /** The phone check overrides the required check on the phone and nowhere else. */
  lemma OverridePhone(f: BillingForm, e: map<BillingKey, string>, k: BillingKey)
    ensures var phoneBad := f.phone != "" && !ExactlyDigits(f.phone, 10);
      var e' := if phoneBad then e[PhoneKey := PhoneMessage] else e;
      && (k == PhoneKey && phoneBad ==> k in e' && e'[k] == PhoneMessage)
      && (!(k == PhoneKey && phoneBad) ==> (k in e' <==> k in e) && (k in e ==> e'[k] == e[k]))
  {
  }

  /** The pincode check overrides what is left on the pincode and nowhere else. */
  lemma OverridePincode(f: BillingForm, e: map<BillingKey, string>, k: BillingKey)
    ensures var pincodeBad := f.pincode != "" && !ExactlyDigits(f.pincode, 6);
      var e' := if pincodeBad then e[PincodeKey := PincodeMessage] else e;
      && (k == PincodeKey && pincodeBad ==> k in e' && e'[k] == PincodeMessage)
      && (!(k == PincodeKey && pincodeBad) ==> (k in e' <==> k in e) && (k in e ==> e'[k] == e[k]))
  {
  }

  /** The format checks over the required check leave, for one key, what ErrorFor says. */
  lemma OverrideAt(f: BillingForm, k: BillingKey)
    ensures var e := WithFormatChecks(f, RequiredErrors(f, AllKeys));
      (k in e <==> ErrorFor(f, k).Some?) && (k in e ==> e[k] == ErrorFor(f, k).value)
  {
    RequiredAt(f, k);
    var e := RequiredErrors(f, AllKeys);
    var phoneBad := f.phone != "" && !ExactlyDigits(f.phone, 10);
    var e' := if phoneBad then e[PhoneKey := PhoneMessage] else e;
    OverridePhone(f, e, k);
    OverridePincode(f, e', k);
  }

  /** The two format checks, applied over the required check on every key, give the form's errors. */
  lemma FormatChecksOverride(f: BillingForm)
    ensures WithFormatChecks(f, RequiredErrors(f, AllKeys)) == BillingErrors(f)
  {
    var errors := WithFormatChecks(f, RequiredErrors(f, AllKeys));
    var all := BillingErrors(f);
    forall k
      ensures (k in errors <==> k in all) && (k in errors ==> errors[k] == all[k])
    {
      OverrideAt(f, k);
    }
    SameEntriesSameMap(errors, all);
  }

  /** Two maps with the same keys and the same value at each key are equal. */
  lemma SameEntriesSameMap<K, V>(a: map<K, V>, b: map<K, V>)
    requires forall k :: (k in a <==> k in b) && (k in a ==> a[k] == b[k])
    ensures a == b
  {
    assert a.Keys == b.Keys;
  }

  /** The form passes exactly when no field is blank, the phone is ten digits and the pincode six. */
  lemma BillingValidIff(f: BillingForm)
    ensures BillingErrors(f) == map[] <==>
      (forall k :: !IsBlank(Get(f, k))) && ExactlyDigits(f.phone, 10) && ExactlyDigits(f.pincode, 6)
  {
    if BillingErrors(f) == map[] {
      forall k ensures !IsBlank(Get(f, k)) {
        assert k !in BillingErrors(f);
      }
      assert PhoneKey !in BillingErrors(f) && PincodeKey !in BillingErrors(f);
    } else {
      var k :| k in BillingErrors(f);
      assert IsBlank(Get(f, k)) || !ExactlyDigits(f.phone, 10) || !ExactlyDigits(f.pincode, 6);
    }
  }

  /** The steps of an online payment: the billing form, the UPI summary, the QR scanner. */
  datatype Step = CartStep | UpiStep | ScannerStep

  /** The buttons that move between the steps of an online payment. */
  datatype StepButton = PayNow | BackToCart | BackToUpi

  /** Where a step button leads, and the step in which it is shown. */
  function StepTarget(button: StepButton): (r: (Step, Step))
    ensures r.0 != r.1
  {
    match button
    case PayNow => (UpiStep, ScannerStep)
    case BackToCart => (UpiStep, CartStep)
    case BackToUpi => (ScannerStep, UpiStep)
  }

  /** The body of POST /api/orders/place: the billing form's keys, and three amounts the server ignores. */
  datatype PlaceBody = PlaceBody(billing: BillingForm, totalAmount: real, discountApplied: real, couponCode: Option<string>)

  // ---------------------------------------------------------------
  // The coupon
  // ---------------------------------------------------------------

  /** The discount, the final total and the coupon error the page keeps. */
  datatype CouponState = CouponState(discount: real, finalTotal: real, couponError: string)

  /**
    The coupon state applyCoupon leaves for a cart total: `discount || 0` and
    `final_amount || cart.total` on success, the reply's "error" and the cart's
    total on failure.
  */
  function CouponApplied(outcome: Fetch<Applied>, total: int): (c: CouponState)
    ensures outcome.FetchFailed? ==> c == CouponState(0.0, total as real, ErrorOr(outcome.failure, "Invalid coupon"))
    ensures outcome.Fetched? ==> c.couponError == "" && c.discount == outcome.body.discount
  {
    match outcome
    case Fetched(a) => CouponState(a.discount, if a.finalAmount != 0.0 then a.finalAmount else total as real, "")
    case FetchFailed(f) => CouponState(0.0, total as real, ErrorOr(f, "Invalid coupon"))
  }

  /** How a reply of apply_offer reaches the page; its refusals carry an "error". */
  function OfferOutcome(r: Reply<Applied>): (o: Fetch<Applied>)
    ensures r.Ok? <==> o.Fetched?
  {
    match r
    case Ok(_, a) => Fetched(a)
    case Err(c, m) => FetchFailed(Response(c, None, Some(m)))
  }

  /**
    What the page shows as payable once the offer endpoint has answered for
    its coupon and total: the server's final amount, unless that amount is 0,
    in which case the whole total (an offer that takes off everything is
    shown as taking off nothing); a refused coupon shows the server's reason
    and the whole total.
  */
  lemma CouponAgreesWithServer(offers: seq<Offer>, coupon: string, total: int, now: int)
    ensures var r := ApplyOfferOn(offers, Some(coupon), Value(total as real), now);
      var c := CouponApplied(OfferOutcome(r), total);
      && (r.Ok? && r.body.finalAmount != 0.0 ==> Payable(c.discount, c.finalTotal, total) == total as real - r.body.discount)
      && (r.Ok? && r.body.finalAmount == 0.0 ==> Payable(c.discount, c.finalTotal, total) == total as real)
      && (r.Ok? && r.body.finalAmount == 0.0 && total != 0 ==> r.body.discount == total as real)
      && (r.Err? ==> Payable(c.discount, c.finalTotal, total) == total as real && c.couponError == r.message)
  {
    var r := ApplyOfferOn(offers, Some(coupon), Value(total as real), now);
    if r.Err? {
      assert r.message in {"Invalid offer code", "Offer expired", "Minimum amount not reached"};
    }
  }

  // ---------------------------------------------------------------
  // The order the server stores
  // ---------------------------------------------------------------

  /** The string members of the body placeOrder posts, by name; the amounts are numbers and read as absent here. */
  function BodyMember(body: PlaceBody, key: string): (r: Option<string>)
    ensures key in {"customer_name", "phone", "address", "city", "pincode"} ==> r.None?
    ensures key == "payment_method" ==> r == Some(body.billing.paymentMethod)
  {
    if key == "billing_name" then Some(body.billing.name)
    else if key == "billing_phone" then Some(body.billing.phone)
    else if key == "billing_address" then Some(body.billing.address)
    else if key == "billing_city" then Some(body.billing.city)
    else if key == "billing_pincode" then Some(body.billing.pincode)
    else if key == "payment_method" then Some(body.billing.paymentMethod)
    else if key == "coupon_code" then body.couponCode
    else None
  }

  /** The billing members place_order reads out of a body. */
  function ReadBilling(body: PlaceBody): Billing {
    Billing(BodyMember(body, "customer_name"), BodyMember(body, "phone"), BodyMember(body, "address"),
            BodyMember(body, "city"), BodyMember(body, "pincode"))
  }

  /**
    The page names its billing members "billing_…" and the endpoint reads
    other names, so an order placed from the page stores no billing details;
    it stores the page's payment option ("COD" or "Online") and the cart's
    total at current prices, whatever amount, discount and coupon the page sent.
  */
  lemma PlacedOrderFromPage(t: Tables, u: int, body: PlaceBody, invoiceNo: string)
    requires PlaceOrderOn(t, u, ReadBilling(body), BodyMember(body, "payment_method"), invoiceNo).1.Ok?
    ensures var orders := PlaceOrderOn(t, u, ReadBilling(body), BodyMember(body, "payment_method"), invoiceNo).0.orders;
      && |orders| == |t.orders| + 1
      && orders[|t.orders|].billing == Billing(None, None, None, None, None)
      && orders[|t.orders|].paymentMethod == body.billing.paymentMethod
      && orders[|t.orders|].totalAmount == SubtotalSum(Entries(t.products, Filter(t.carts, OwnedBy(u))))
  {
    var pm := BodyMember(body, "payment_method");
    PlaceOrderRecordsCartTotal(t, u, ReadBilling(body), pm, invoiceNo);
    var lines := Filter(t.carts, OwnedBy(u));
    var order := NewOrder(t, u, lines, ReadBilling(body), pm, invoiceNo);
    assert PlaceOrderOn(t, u, ReadBilling(body), pm, invoiceNo).0.orders == t.orders + [order];
  }

  // ---------------------------------------------------------------
  // The quantity update against the server
  // ---------------------------------------------------------------

  /** The cart lines with the line of this id at a new quantity. */
  function Requantify(ls: seq<CartLine>, id: int, q: int): (r: seq<CartLine>)
    ensures |r| == |ls|
    ensures forall i :: 0 <= i < |ls| ==> r[i] == if ls[i].id == id then ls[i].(quantity := q) else ls[i]
  {
    seq(|ls|, i requires 0 <= i < |ls| => if ls[i].id == id then ls[i].(quantity := q) else ls[i])
  }

  /** Line ids are unique, so setting the quantity at a line's index sets it on the one line with that id. */
  lemma RequantifyAtIndex(ls: seq<CartLine>, k: nat, q: int)
    requires AscendingBy(ls, LineId) && k < |ls|
    ensures ls[k := ls[k].(quantity := q)] == Requantify(ls, ls[k].id, q)
  {
    forall i | 0 <= i < |ls| && i != k ensures ls[i].id != ls[k].id {
      assert LineId(ls[i]) != LineId(ls[k]);
    }
  }

  /** A new quantity keeps a line's owner, so it commutes with selecting a user's lines. */
  lemma {:induction false} FilterRequantify(ls: seq<CartLine>, id: int, q: int, u: int)
    ensures Filter(Requantify(ls, id, q), OwnedBy(u)) == Requantify(Filter(ls, OwnedBy(u)), id, q)
  {
    if ls != [] {
      FilterRequantify(ls[1..], id, q, u);
      assert Requantify(ls, id, q)[1..] == Requantify(ls[1..], id, q);
      var x := ls[0];
      if x.userId == u {
        assert Requantify([x] + Filter(ls[1..], OwnedBy(u)), id, q) ==
          [Requantify(ls, id, q)[0]] + Requantify(Filter(ls[1..], OwnedBy(u)), id, q);
      }
    }
  }

  /** Listing the lines at the new quantity lists the items at the new quantity, subtotals recomputed. */
  lemma {:induction false} EntriesRequantify(ps: seq<Product>, ls: seq<CartLine>, id: int, q: int)
    ensures Entries(ps, Requantify(ls, id, q)) == SetQuantity(Entries(ps, ls), id, q)
  {
    if ls != [] {
      var n := |ls| - 1;
      var r := Requantify(ls, id, q);
      EntriesRequantify(ps, ls[..n], id, q);
      assert r[..n] == Requantify(ls[..n], id, q);
      assert r[..n + 1] == r && ls[..n + 1] == ls;
      EntriesStep(ps, r, n);
      EntriesStep(ps, ls, n);
      EntryOfRequantified(ps, ls[n], id, q);
      var e := EntryOf(ps, ls[n]);
      if e.Some? {
        SetQuantityAppend(Entries(ps, ls[..n]), e.value, id, q);
      }
    }
  }

  lemma EntryOfRequantified(ps: seq<Product>, l: CartLine, id: int, q: int)
    ensures var e := EntryOf(ps, l);
      EntryOf(ps, if l.id == id then l.(quantity := q) else l) ==
        if e.Some? then Some(WithQuantity(id, q)(e.value)) else None
  {
  }

  lemma SetQuantityAppend(v: seq<CartEntry>, e: CartEntry, id: int, q: int)
    ensures SetQuantity(v + [e], id, q) == SetQuantity(v, id, q) + [WithQuantity(id, q)(e)]
  {
  }

  /**
    The local update of updateQty is what GET /api/cart would list after the
    server accepted the same quantity: the same items with the addressed one
    at the new quantity, so also the same total.
  */
  lemma QtyAgreesWithServer(t: Tables, u: int, itemId: int, q: int)
    requires Valid(t)
    requires UpdateCartItemOn(t, u, itemId, Value(q)).1.Ok?
    ensures var t' := UpdateCartItemOn(t, u, itemId, Value(q)).0;
      Entries(t'.products, Filter(t'.carts, OwnedBy(u))) == SetQuantity(Entries(t.products, Filter(t.carts, OwnedBy(u))), itemId, q)
  {
    var k := OwnLineIndex(t.carts, itemId, u).value;
    RequantifyAtIndex(t.carts, k, q);
    FilterRequantify(t.carts, itemId, q, u);
    EntriesRequantify(t.products, Filter(t.carts, OwnedBy(u)), itemId, q);
  }

  // ---------------------------------------------------------------
  // The page
  // ---------------------------------------------------------------

  class Page {
    var items: seq<CartEntry>
    var total: int
    var loading: bool
    var placing: bool
    var orderId: Option<int>
    var coupon: string
    var discount: real
    var finalTotal: real
    var couponError: string
    var billing: BillingForm
    var billingErrors: map<BillingKey, string>
    var qtyLoadingId: Option<int>
    var step: Step
    var wishlistItems: seq<WishEntry>
    var wishlistLoading: bool

    /** Only an online payment leaves the billing step, and the payment is one of the two options. */
    predicate StepConsistent()
      reads this
    {
      && billing.paymentMethod in {"COD", "Online"}
      && (billing.paymentMethod != "Online" ==> step == CartStep)
    }

    constructor ()
      ensures items == [] && total == 0 && loading && !placing && orderId.None?
      ensures coupon == "" && discount == 0.0 && finalTotal == 0.0 && couponError == ""
      ensures billing == InitialBilling && billingErrors == map[] && qtyLoadingId.None? && step == CartStep
      ensures wishlistItems == [] && wishlistLoading
      ensures StepConsistent()
    {
      items, total, loading, placing, orderId := [], 0, true, false, None;
      coupon, discount, finalTotal, couponError := "", 0.0, 0.0, "";
      billing, billingErrors, qtyLoadingId, step := InitialBilling, map[], None, CartStep;
      wishlistItems, wishlistLoading := [], true;
    }

    /** The amount shown as payable. */
    function PayableAmount(): real
      reads this
    {
      Payable(discount, finalTotal, total)
    }

    /**
      fetchCart. `seenCoupon` and `seenDiscount` are the coupon and discount
      as the calling closure saw them: the final total follows the cart's
      total unless a coupon was in force then. The window listeners hold the
      first render's closure, which saw no coupon.
    */
    method FetchCart(outcome: Fetch<CartBody>, seenCoupon: string, seenDiscount: real)
      modifies this`items, this`total, this`finalTotal, this`loading
      ensures !loading
      ensures outcome.Fetched? ==> items == outcome.body.items && total == outcome.body.total
      ensures outcome.Fetched? && (seenCoupon == "" || seenDiscount == 0.0) ==> finalTotal == outcome.body.total as real
      ensures outcome.Fetched? && seenCoupon != "" && seenDiscount != 0.0 ==> finalTotal == old(finalTotal)
      ensures outcome.FetchFailed? ==> items == [] && total == 0 && finalTotal == old(finalTotal)
    {
      match outcome {
        case Fetched(data) =>
          items, total := data.items, data.total;
          if seenCoupon == "" || seenDiscount == 0.0 {
            finalTotal := data.total as real;
          }
        case FetchFailed(_) =>
          items, total := [], 0;
      }
      loading := false;
    }

    /** The "cart-updated" listener: a reload through the first render's closure, so the final total is reset. */
    method OnCartUpdated(outcome: Fetch<CartBody>)
      modifies this`items, this`total, this`finalTotal, this`loading
      ensures outcome.Fetched? ==> items == outcome.body.items && finalTotal == outcome.body.total as real
      ensures outcome.FetchFailed? ==> items == [] && finalTotal == old(finalTotal)
    {
      FetchCart(outcome, "", 0.0);
    }

    /** fetchWishlist: an array, or [] for any other body or a failure. */
    method FetchWishlist(outcome: Fetch<Json<WishEntry>>)
      modifies this`wishlistItems, this`wishlistLoading
      ensures !wishlistLoading
      ensures wishlistItems == (if outcome.Fetched? then ArrayOr(outcome.body) else [])
    {
      wishlistItems := if outcome.Fetched? then ArrayOr(outcome.body) else [];
      wishlistLoading := false;
    }

    /** The local update once the PUT of a quantity succeeds; the coupon is dropped with it. */
    method QuantitySet(b: Browser, itemId: int, newQty: int)
      modifies this`items, this`total, this`discount, this`coupon, this`couponError, this`finalTotal, b`events
      ensures items == SetQuantity(old(items), itemId, newQty) && total == SubtotalSum(items)
      ensures discount == 0.0 && coupon == "" && couponError == "" && finalTotal == total as real
      ensures b.events == old(b.events) + [CartUpdated]
    {
      items := SetQuantity(items, itemId, newQty);
      total := SubtotalSum(items);
      discount, coupon, couponError := 0.0, "", "";
      finalTotal := total as real;
      b.events := b.events + [CartUpdated];
    }

    /**
      updateQty: below one nothing is sent. Once the PUT succeeds, the item
      takes the quantity, the total is the sum of the subtotals, and the
      coupon is dropped; a failure alerts and reloads the cart.
    */
    method UpdateQty(b: Browser, itemId: int, newQty: int, outcome: Option<Failure>, reload: Fetch<CartBody>)
      returns (sent: bool, alert: Option<string>)
      modifies this, b`events
      ensures sent <==> newQty >= 1
      ensures !sent ==> items == old(items) && total == old(total) && alert.None? && b.events == old(b.events)
      ensures !sent ==> coupon == old(coupon) && discount == old(discount) && finalTotal == old(finalTotal)
      ensures sent && outcome.None? ==> items == SetQuantity(old(items), itemId, newQty) && total == SubtotalSum(items)
      ensures sent && outcome.None? ==> discount == 0.0 && coupon == "" && couponError == "" && finalTotal == total as real
      ensures sent && outcome.None? ==> alert.None? && b.events == old(b.events) + [CartUpdated]
      ensures sent && outcome.Some? ==> alert == Some(ErrorOr(outcome.value, "Failed to update quantity")) && b.events == old(b.events)
      ensures sent && outcome.Some? && reload.Fetched? ==> items == reload.body.items
      ensures sent ==> qtyLoadingId.None?
      ensures billing == old(billing) && step == old(step) && orderId == old(orderId)
    {
      if newQty < 1 {
        return false, None;
      }
      sent := true;
      qtyLoadingId := Some(itemId);
      if outcome.None? {
        QuantitySet(b, itemId, newQty);
        alert := None;
      } else {
        alert := Some(ErrorOr(outcome.value, "Failed to update quantity"));
        FetchCart(reload, coupon, discount);
      }
      qtyLoadingId := None;
    }

    /** removeItem: once the DELETE succeeds the cart is reloaded, then "cart-updated" is dispatched. */
    method RemoveItem(b: Browser, id: int, outcome: Option<Failure>, reload: Fetch<CartBody>)
      returns (path: string, alert: Option<string>)
      modifies this, b`events
      ensures path == "/cart/remove/" + IntToString(id)
      ensures outcome.None? ==> alert.None? && b.events == old(b.events) + [CartUpdated]
      ensures outcome.None? && reload.Fetched? ==> items == reload.body.items && total == reload.body.total
      ensures outcome.Some? ==> alert == Some("Failed to remove item") && b.events == old(b.events)
      ensures outcome.Some? ==> items == old(items) && total == old(total)
      ensures coupon == old(coupon) && discount == old(discount) && billing == old(billing) && step == old(step)
    {
      path := "/cart/remove/" + IntToString(id);
      if outcome.None? {
        FetchCart(reload, coupon, discount);
        b.events := b.events + [CartUpdated];
        alert := None;
      } else {
        alert := Some("Failed to remove item");
      }
    }

    /** handleChange on the billing form: the field takes the value, its error is blanked, and the payment select picks the step. */
    method HandleChange(k: BillingKey, value: string)
      requires StepConsistent()
      requires k == PaymentKey ==> value in {"COD", "Online"}
      modifies this
      ensures StepConsistent()
      ensures billing == Set(old(billing), k, value)
      ensures billingErrors == old(billingErrors)[k := ""]
      ensures k == PaymentKey && value == "Online" ==> step == UpiStep
      ensures k == PaymentKey && value == "COD" ==> step == CartStep
      ensures k != PaymentKey ==> step == old(step)
      ensures items == old(items) && coupon == old(coupon) && discount == old(discount) && finalTotal == old(finalTotal)
    {
      billing := Set(billing, k, value);
      billingErrors := billingErrors[k := ""];
      if k == PaymentKey {
        if value == "Online" {
          step := UpiStep;
        }
        if value == "COD" {
          step := CartStep;
        }
      }
    }

    /** A step button, shown only for an online payment in the step it leaves. */
    method ClickStep(button: StepButton)
      requires StepConsistent()
      requires billing.paymentMethod == "Online" && step == StepTarget(button).0
      modifies this
      ensures StepConsistent()
      ensures step == StepTarget(button).1
      ensures billing == old(billing) && items == old(items) && discount == old(discount) && finalTotal == old(finalTotal)
    {
      step := StepTarget(button).1;
    }

    /** validateBilling: the required check over every key in turn, then the two format checks. */
    method ValidateBilling() returns (valid: bool)
      modifies this`billingErrors
      ensures billingErrors == BillingErrors(billing)
      ensures valid <==> billingErrors == map[]
    {
      var errors: map<BillingKey, string> := map[];
      for i := 0 to |AllKeys|
        invariant errors == RequiredErrors(billing, AllKeys[..i])
      {
        RequiredErrorsStep(billing, AllKeys, i);
        if IsBlank(Get(billing, AllKeys[i])) {
          errors := errors[AllKeys[i] := Required];
        }
      }
      assert AllKeys[..|AllKeys|] == AllKeys;
      if billing.phone != "" && !ExactlyDigits(billing.phone, 10) {
        errors := errors[PhoneKey := PhoneMessage];
      }
      if billing.pincode != "" && !ExactlyDigits(billing.pincode, 6) {
        errors := errors[PincodeKey := PincodeMessage];
      }
      FormatChecksOverride(billing);
      billingErrors := errors;
      valid := |errors| == 0;
    }

    /** applyCoupon: the code and the cart's total go to POST /api/apply-offer; the outcome sets the coupon state. */
    method ApplyCoupon(outcome: Fetch<Applied>) returns (code: string, cartTotal: int)
      modifies this`discount, this`finalTotal, this`couponError
      ensures code == coupon && cartTotal == total
      ensures CouponState(discount, finalTotal, couponError) == CouponApplied(outcome, total)
    {
      code, cartTotal := coupon, total;
      couponError := "";
      match outcome {
        case Fetched(applied) =>
          discount := applied.discount;
          finalTotal := if applied.finalAmount != 0.0 then applied.finalAmount else total as real;
        case FetchFailed(f) =>
          couponError := ErrorOr(f, "Invalid coupon");
          discount := 0.0;
          finalTotal := total as real;
      }
    }

    /** The payable amount is shown on the UPI step, and an order is placed from the scanner step or, for cash on delivery, from the form. */
    predicate PlaceOrderShown()
      reads this
    {
      billing.paymentMethod == "COD" || (billing.paymentMethod == "Online" && step == ScannerStep)
    }

    /**
      What a placed order does to the page: the order id is kept, the coupon
      dropped, an online payment returns to the UPI step, and the cart is
      reloaded through the closure that still saw the coupon.
    */
    method OrderPlaced(b: Browser, id: int, reload: Fetch<CartBody>)
      requires StepConsistent()
      modifies this`orderId, this`coupon, this`discount, this`couponError, this`step
      modifies this`items, this`total, this`finalTotal, this`loading, b`events
      ensures StepConsistent()
      ensures orderId == Some(id) && coupon == "" && discount == 0.0 && couponError == ""
      ensures step == (if billing.paymentMethod == "Online" then UpiStep else CartStep)
      ensures b.events == old(b.events) + [CartUpdated]
      ensures reload.Fetched? ==> items == reload.body.items && total == reload.body.total
      ensures reload.FetchFailed? ==> items == [] && total == 0
    {
      var seenCoupon, seenDiscount := coupon, discount;
      orderId := Some(id);
      coupon, discount, couponError := "", 0.0, "";
      step := if billing.paymentMethod == "Online" then UpiStep else CartStep;
      FetchCart(reload, seenCoupon, seenDiscount);
      b.events := b.events + [CartUpdated];
    }

    /**
      placeOrder: nothing is sent unless the billing form is valid and the
      cart holds an item. The body carries the form's keys and the payable
      amount; the button is disabled while an order is being placed.
    */
    method PlaceOrder(b: Browser, outcome: Fetch<int>, reload: Fetch<CartBody>) returns (sent: Option<PlaceBody>, alert: Option<string>)
      requires StepConsistent() && PlaceOrderShown() && !placing
      modifies this, b`events
      ensures StepConsistent() && !placing && billing == old(billing)
      ensures billingErrors == BillingErrors(billing)
      ensures sent.Some? <==> billingErrors == map[] && old(items) != []
      ensures billingErrors == map[] && old(items) == [] ==> alert == Some("Your cart is empty")
      ensures sent.Some? ==> sent.value == PlaceBody(billing, old(PayableAmount()), old(discount), if old(coupon) == "" then None else Some(old(coupon)))
      ensures sent.Some? && outcome.Fetched? ==> orderId == Some(outcome.body) && alert == Some("🎉 Order placed successfully!")
      ensures sent.Some? && outcome.Fetched? ==> coupon == "" && discount == 0.0 && b.events == old(b.events) + [CartUpdated]
      ensures sent.Some? && outcome.FetchFailed? ==> alert == Some(ErrorOr(outcome.failure, "❌ Failed to place order"))
      ensures sent.None? || outcome.FetchFailed? ==> b.events == old(b.events) && items == old(items) && orderId == old(orderId)
      ensures sent.None? || outcome.FetchFailed? ==> coupon == old(coupon) && discount == old(discount) && step == old(step)
    {
      var valid := ValidateBilling();
      if !valid {
        return None, None;
      }
      if items == [] {
        return None, Some("Your cart is empty");
      }
      placing := true;
      sent := Some(PlaceBody(billing, PayableAmount(), discount, if coupon == "" then None else Some(coupon)));
      match outcome {
        case Fetched(id) =>
          alert := Some("🎉 Order placed successfully!");
          OrderPlaced(b, id, reload);
        case FetchFailed(f) =>
          alert := Some(ErrorOr(f, "❌ Failed to place order"));
      }
      placing := false;
    }

    /** addWishlistToCart: one unit; success dispatches "cart-updated" and reloads the cart. */
    method AddWishlistToCart(b: Browser, productId: int, outcome: Option<Failure>, reload: Fetch<CartBody>)
      returns (body: WishlistPage.AddBody, alert: string)
      modifies this, b`events
      ensures body == WishlistPage.AddBody(productId, 1)
      ensures outcome.None? ==> alert == "Added to cart 🛒" && b.events == old(b.events) + [CartUpdated]
      ensures outcome.None? && reload.Fetched? ==> items == reload.body.items
      ensures outcome.Some? ==> alert == ErrorOr(outcome.value, "Failed to add to cart") && b.events == old(b.events) && items == old(items)
      ensures wishlistItems == old(wishlistItems) && billing == old(billing) && step == old(step)
    {
      body := WishlistPage.AddBody(productId, 1);
      if outcome.None? {
        b.events := b.events + [CartUpdated];
        FetchCart(reload, coupon, discount);
        alert := "Added to cart 🛒";
      } else {
        alert := ErrorOr(outcome.value, "Failed to add to cart");
      }
    }

    /** removeWishlistItem: once the DELETE succeeds the item with that id leaves the list beside the cart. */
    method RemoveWishlistItem(b: Browser, id: int, outcome: Option<Failure>) returns (alert: Option<string>)
      modifies this, b`events
      ensures outcome.None? ==> wishlistItems == Filter(old(wishlistItems), WishlistPage.OtherThan(id)) && alert.None?
      ensures outcome.None? ==> b.events == old(b.events) + [WishlistUpdated]
      ensures outcome.Some? ==> wishlistItems == old(wishlistItems) && b.events == old(b.events)
      ensures outcome.Some? ==> alert == Some(MessageOr(outcome.value, "Failed to remove item"))
      ensures items == old(items) && billing == old(billing) && step == old(step)
    {
      if outcome.None? {
        wishlistItems := Filter(wishlistItems, WishlistPage.OtherThan(id));
        b.events := b.events + [WishlistUpdated];
        alert := None;
      } else {
        alert := Some(MessageOr(outcome.value, "Failed to remove item"));
      }
    }
  }
}
