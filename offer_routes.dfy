/**
  The offer endpoints (backend/routes/offer_routes.py): creating a coupon and
  checking one against a cart total.

  Neither endpoint asks for a signed-in user. Amounts are reals (the columns
  are Float and the cart total is converted with float(...)); the two-place
  rounding of the answer is not modelled. The expiry date is an integer
  instant, compared with the `now` the caller passes in place of the clock.
*/
module OfferRoutes {
  import opened Common
  import opened Models
  import opened Db

  // ---------------------------------------------------------------
  // POST /api/create-offer
  // ---------------------------------------------------------------

  /**
    The JSON keys create_offer reads; None is an absent key. `expiryDate` is
    Unparsable when strptime refuses the text.
  */
  datatype OfferForm = OfferForm(
    title: Option<string>,
    code: Option<string>,
    discountType: Option<string>,
    discountValue: Option<real>,
    minAmount: Option<real>,
    expiryDate: Input<int>)

  /** The row create_offer inserts, when every required key is present and the date parses. */
  function NewOffer(offers: seq<Offer>, f: OfferForm): (r: Option<Offer>)
    ensures r.Some? <==>
      f.title.Some? && f.code.Some? && f.discountType.Some? && f.discountValue.Some? && f.expiryDate.Value?
    ensures r.Some? ==>
      && r.value.id == FreshKey(offers, OfferId)
      && r.value.code == Upper(f.code.value)
      && r.value.minAmount == (if f.minAmount.Some? then f.minAmount.value else 0.0)
      && r.value.active
  {
    if f.title.None? || f.code.None? || f.discountType.None? || f.discountValue.None? || !f.expiryDate.Value? then None
    else
      Some(Offer(FreshKey(offers, OfferId), f.title.value, Upper(f.code.value), f.discountType.value,
                 f.discountValue.value, if f.minAmount.Some? then f.minAmount.value else 0.0,
                 f.expiryDate.v, DefaultOfferActive))
  }

  /** Some offer already has this code (the unique constraint fails at commit). */
  predicate CodeTaken(offers: seq<Offer>, code: string) {
    exists o :: o in offers && o.code == code
  }

  /**
    The effect of create_offer: a missing key or a bad date raises, and so does
    a code that is taken once upper-cased; each of these answers 500.
  */
  function CreateOfferOn(t: Tables, f: OfferForm): (res: (Tables, Reply<string>))
    ensures res.1.Err? ==> res.0 == t && res.1 == Err(500, ServerError)
    ensures res.1.Ok? <==> NewOffer(t.offers, f).Some? && !CodeTaken(t.offers, Upper(f.code.value))
    ensures res.1.Ok? ==>
      && res.1 == Ok(200, "Offer created successfully")
      && res.0 == t.(offers := t.offers + [NewOffer(t.offers, f).value])
  {
    match NewOffer(t.offers, f)
    case None => (t, Err(500, ServerError))
    case Some(o) =>
      if CodeTaken(t.offers, o.code) then (t, Err(500, ServerError))
      else (t.(offers := t.offers + [o]), Ok(200, "Offer created successfully"))
  }

  lemma CreateOfferKeepsValid(t: Tables, f: OfferForm)
    requires Valid(t)
    ensures Valid(CreateOfferOn(t, f).0)
  {
    var res := CreateOfferOn(t, f);
    if res.1.Ok? {
      AppendAscending(t.offers, OfferId, NewOffer(t.offers, f).value);
    }
  }

  method CreateOffer(db: Store, f: OfferForm) returns (r: Reply<string>)
    requires Valid(db.Snapshot())
    modifies db
    ensures (db.Snapshot(), r) == CreateOfferOn(old(db.Snapshot()), f)
    ensures Valid(db.Snapshot())
  {
    CreateOfferKeepsValid(db.Snapshot(), f);
    var offer := NewOffer(db.offers, f);
    if offer.None? || CodeTaken(db.offers, offer.value.code) {
      return Err(500, ServerError);
    }
    db.Commit(db.Snapshot().(offers := db.offers + [offer.value]));
    return Ok(200, "Offer created successfully");
  }

  // ---------------------------------------------------------------
  // POST /api/apply-offer
  // ---------------------------------------------------------------

  /** Index of the first active offer with this code (filter_by(code=..., active=True).first()). */
  function ActiveOfferIndex(offers: seq<Offer>, code: string): (r: Option<nat>)
    ensures r.Some? ==> r.value < |offers| && offers[r.value].code == code && offers[r.value].active
    ensures r.Some? ==> forall k :: 0 <= k < r.value ==> !(offers[k].code == code && offers[k].active)
    ensures r.None? ==> forall k :: 0 <= k < |offers| ==> !(offers[k].code == code && offers[k].active)
  {
    if offers == [] then None
    else if offers[0].code == code && offers[0].active then Some(0)
    else match ActiveOfferIndex(offers[1..], code)
      case None => None
      case Some(k) => Some(k + 1)
  }

  /** What apply_offer answers when the offer applies. */
  datatype Applied = Applied(discount: real, finalAmount: real)

  /** The discount an offer gives on a total: a percentage of it, or the value itself for any other type. */
  function DiscountFor(o: Offer, total: real): real {
    if o.discountType == "percentage" then (o.discountValue / 100.0) * total else o.discountValue
  }

  /**
    apply_offer for the body's "code" and "cart_total": a missing code or a
    total float(...) refuses raises (500); then the guards fire in order.
  */
  function ApplyOfferOn(offers: seq<Offer>, code: Option<string>, cartTotal: Input<real>, now: int): (r: Reply<Applied>)
    ensures code.None? || !cartTotal.Value? ==> r == Err(500, ServerError)
    ensures code.Some? && cartTotal.Value? ==>
      var k := ActiveOfferIndex(offers, Upper(code.value));
      && (k.None? ==> r == Err(400, "Invalid offer code"))
      && (k.Some? && offers[k.value].expiry < now ==> r == Err(400, "Offer expired"))
      && (k.Some? && offers[k.value].expiry >= now && cartTotal.v < offers[k.value].minAmount ==>
            r == Err(400, "Minimum amount not reached"))
      && (r.Ok? <==> k.Some? && offers[k.value].expiry >= now && cartTotal.v >= offers[k.value].minAmount)
    ensures r.Ok? ==> r.code == 200 && r.body.finalAmount + r.body.discount == cartTotal.v
    // the discount is the one the matched offer gives on the total
    ensures r.Ok? ==>
      && code.Some? && cartTotal.Value? && ActiveOfferIndex(offers, Upper(code.value)).Some?
      && r.body.discount == DiscountFor(offers[ActiveOfferIndex(offers, Upper(code.value)).value], cartTotal.v)
  {
    if code.None? || !cartTotal.Value? then Err(500, ServerError)
    else
      var total := cartTotal.v;
      match ActiveOfferIndex(offers, Upper(code.value))
      case None => Err(400, "Invalid offer code")
      case Some(k) =>
        var o := offers[k];
        if o.expiry < now then Err(400, "Offer expired")
        else if total < o.minAmount then Err(400, "Minimum amount not reached")
        else
          var discount := DiscountFor(o, total);
          Ok(200, Applied(discount, total - discount))
  }

  /** A percentage offer of at most 100 on a non-negative total never takes off more than the total. */
  lemma PercentageStaysWithinTotal(o: Offer, total: real)
    requires o.discountType == "percentage"
    requires 0.0 <= o.discountValue <= 100.0 && total >= 0.0
    ensures 0.0 <= DiscountFor(o, total) <= total
  {
    var f := o.discountValue / 100.0;
    assert 0.0 <= f <= 1.0;
    RealMulMonotone(f, 1.0, total);
    RealMulMonotone(0.0, f, total);
    calc {
      DiscountFor(o, total);
    ==
      f * total;
    <=
      1.0 * total;
    ==
      total;
    }
  }

  lemma RealMulMonotone(a: real, b: real, c: real)
    requires a <= b && c >= 0.0
    ensures a * c <= b * c
  {
  }

  /** A flat offer worth more than the total gives a negative amount to pay: nothing clamps it. */
  lemma FlatDiscountCanGoNegative(offers: seq<Offer>, code: string, total: real, now: int)
    requires ApplyOfferOn(offers, Some(code), Value(total), now).Ok?
    requires var o := offers[ActiveOfferIndex(offers, Upper(code)).value];
      o.discountType != "percentage" && o.discountValue > total
    ensures ApplyOfferOn(offers, Some(code), Value(total), now).body.finalAmount < 0.0
  {
  }

  /** Offers added after an active offer with the code do not change which offer a code finds. */
  lemma {:induction false} ActiveOfferIndexAppend(offers: seq<Offer>, o: Offer, code: string)
    requires forall k :: 0 <= k < |offers| ==> offers[k].code != code
    requires o.code == code && o.active
    ensures ActiveOfferIndex(offers + [o], code) == Some(|offers|)
  {
    if offers != [] {
      assert (offers + [o])[1..] == offers[1..] + [o];
      ActiveOfferIndexAppend(offers[1..], o, code);
    }
  }

  /**
    A created offer is found by its code in any letter case; before its expiry
    and on a total reaching its minimum it applies, with its own discount.
  */
  lemma CreatedOfferApplies(t: Tables, f: OfferForm, code: string, total: real, now: int)
    requires CreateOfferOn(t, f).1.Ok?
    requires Upper(code) == Upper(f.code.value)
    requires f.expiryDate.v >= now
    requires total >= (if f.minAmount.Some? then f.minAmount.value else 0.0)
    ensures var o := NewOffer(t.offers, f).value;
      ApplyOfferOn(CreateOfferOn(t, f).0.offers, Some(code), Value(total), now) ==
      Ok(200, Applied(DiscountFor(o, total), total - DiscountFor(o, total)))
  {
    var o := NewOffer(t.offers, f).value;
    var offers' := CreateOfferOn(t, f).0.offers;
    assert offers' == t.offers + [o];
    forall k | 0 <= k < |t.offers| ensures t.offers[k].code != Upper(code) {
      assert t.offers[k] in t.offers;
    }
    ActiveOfferIndexAppend(t.offers, o, Upper(code));
  }
}
