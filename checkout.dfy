/**
 * The cart-to-checkout computation of the `/api/create-checkout-session`
 * handler: from the requested cart lines, the pickup flag and the catalog it
 * builds the checkout-session request that is handed to the payment processor,
 * or rejects the request.
 *
 * The pure parts (filter, line-item resolution, subtotal, weight) are functions;
 * ResolveCart composes them into the specification of the handler, and
 * CreateCheckoutSession is the handler body written step by step (the loop
 * that collects pickup-only ids, the reassigned tier, the session that gains
 * its shipping fields) and proved to compute ResolveCart.
 */
module Checkout {
  import opened Wrappers
  import opened Catalog
  import opened ShippingRates
  import opened WeightGuess

  /** One requested cart line, `{id, qty}`. */
  datatype CartLine = CartLine(id: string, qty: int)

  /** The request body. `items` is `None` when the field is not an array. */
  datatype Request = Request(items: Option<seq<CartLine>>, pickup: bool)

  /** A line of the session: a processor price id and a quantity. */
  datatype LineItem = LineItem(price: string, quantity: int)

  /** A shipping option: a pre-registered rate id, or an ad-hoc fixed amount. */
  datatype ShippingOption =
    | RateOption(shippingRate: string)
    | FixedAmountOption(amount: int, currency: string, displayName: string)

  /** The session request handed to the payment processor. */
  datatype Session = Session(
    paymentMethodTypes: seq<string>,
    mode: string,
    lineItems: seq<LineItem>,
    allowPromotionCodes: bool,
    allowedCountries: Option<seq<string>>,
    shippingOptions: seq<ShippingOption>)

  /** The two ways the handler rejects a cart with status 400. */
  datatype CheckoutError = NoItems | NoValidPrices

  /** The error text sent back with status 400. */
  function Message(e: CheckoutError): string
  {
    match e
    case NoItems => "Keine Artikel im Warenkorb"
    case NoValidPrices => "Keine gültigen Stripe-Preise gefunden"
  }

  /** The countries a shipping address may be in (ISO 3166-1 alpha-2). */
  const ALLOWED_COUNTRIES: seq<string> := [
    "AT", "BE", "BG", "HR", "CY", "CZ", "DK", "EE", "FI", "FR",
    "DE", "GR", "HU", "IE", "IT", "LV", "LT", "LU", "MT", "NL",
    "PL", "PT", "RO", "SK", "SI", "ES", "SE"
  ]

  /** The only shipping option of a pickup order. */
  const PICKUP_OPTION: ShippingOption := FixedAmountOption(0, "eur", "Nur Abholung im Store")

  /** Subtotal in cents from which shipping is free. */
  const FREE_SHIPPING_FROM: int := 6000

  // ---------------------------------------------------------------------------
  // 1) Pickup-only ids
  // ---------------------------------------------------------------------------

  function VariantIds(variants: seq<Variant>): set<string>
  {
    if variants == [] then {}
    else VariantIds(variants[..|variants| - 1]) + {variants[|variants| - 1].id}
  }

  /** The ids the pickup-only loop adds, product by product in catalog order. */
  function PickupOnlyIds(catalog: seq<Product>): set<string>
  {
    if catalog == [] then {}
    else
      var p := catalog[|catalog| - 1];
      PickupOnlyIds(catalog[..|catalog| - 1]) + (if p.pickupOnly then {p.id} + VariantIds(p.variants) else {})
  }

  /** x is the id of a pickup-only product or of one of its variants. */
  ghost predicate IsPickupOnlyId(catalog: seq<Product>, x: string)
  {
    exists k :: 0 <= k < |catalog| && catalog[k].pickupOnly && Designates(catalog[k], x)
  }

  /** The variant ids collected are exactly the ids of the variants. */
  lemma {:induction false} VariantIdsExactly(variants: seq<Variant>)
    ensures forall x :: x in VariantIds(variants) <==> exists m :: 0 <= m < |variants| && variants[m].id == x
  {
    if variants != [] {
      var init := variants[..|variants| - 1];
      VariantIdsExactly(init);
      assert forall m :: 0 <= m < |init| ==> init[m] == variants[m];
    }
  }

  /** The pickup-only set holds exactly the pickup-only products' ids and their variants' ids. */
  lemma {:induction false} PickupOnlyIdsExactly(catalog: seq<Product>)
    ensures forall x :: x in PickupOnlyIds(catalog) <==> IsPickupOnlyId(catalog, x)
  {
    if catalog != [] {
      var init := catalog[..|catalog| - 1];
      var p := catalog[|catalog| - 1];
      PickupOnlyIdsExactly(init);
      VariantIdsExactly(p.variants);
      assert forall k :: 0 <= k < |init| ==> init[k] == catalog[k];
      forall x | IsPickupOnlyId(catalog, x)
        ensures x in PickupOnlyIds(catalog)
      {
        var k :| 0 <= k < |catalog| && catalog[k].pickupOnly && Designates(catalog[k], x);
        if k < |init| {
          assert IsPickupOnlyId(init, x);
        }
      }
    }
  }

  /** The handler's loop over the catalog that fills the pickup-only set. */
  method CollectPickupOnlyIds(catalog: seq<Product>) returns (ids: set<string>)
    ensures ids == PickupOnlyIds(catalog)
    ensures forall x :: x in ids <==> IsPickupOnlyId(catalog, x)
  {
    ids := {};
    for i := 0 to |catalog|
      invariant ids == PickupOnlyIds(catalog[..i])
    {
      var p := catalog[i];
      if p.pickupOnly {
        ids := ids + {p.id};
        for j := 0 to |p.variants|
          invariant ids == PickupOnlyIds(catalog[..i]) + {p.id} + VariantIds(p.variants[..j])
        {
          assert p.variants[..j + 1][..j] == p.variants[..j];
          ids := ids + {p.variants[j].id};
        }
        assert p.variants[..|p.variants|] == p.variants;
      }
      assert catalog[..i + 1][..i] == catalog[..i];
    }
    assert catalog[..|catalog|] == catalog;
    PickupOnlyIdsExactly(catalog);
  }

  // ---------------------------------------------------------------------------
  // 2) Filter
  // ---------------------------------------------------------------------------

  /** `items.filter(i => !ids.has(i.id))`. */
  function WithoutIds(items: seq<CartLine>, ids: set<string>): (r: seq<CartLine>)
    ensures |r| <= |items|
    ensures forall k :: 0 <= k < |r| ==> r[k].id !in ids
  {
    if items == [] then []
    else
      var rest := WithoutIds(items[1..], ids);
      if items[0].id in ids then rest else [items[0]] + rest
  }

  /** The filter keeps exactly the lines whose id is outside the set, each as often as it occurs. */
  lemma {:induction false} WithoutIdsMembers(items: seq<CartLine>, ids: set<string>)
    ensures forall x :: x in WithoutIds(items, ids) <==> x in items && x.id !in ids
    ensures multiset(WithoutIds(items, ids)) <= multiset(items)
    ensures forall x: CartLine :: x.id !in ids ==> multiset(WithoutIds(items, ids))[x] == multiset(items)[x]
  {
    if items != [] {
      WithoutIdsMembers(items[1..], ids);
      assert items == [items[0]] + items[1..];
      assert multiset(items) == multiset{items[0]} + multiset(items[1..]);
    }
  }

  /** A cart whose every id is in the set is filtered to nothing. */
  lemma {:induction false} WithoutIdsAllRemoved(items: seq<CartLine>, ids: set<string>)
    requires forall k :: 0 <= k < |items| ==> items[k].id in ids
    ensures WithoutIds(items, ids) == []
  {
    if items != [] {
      WithoutIdsAllRemoved(items[1..], ids);
    }
  }

  /** The filter keeps the order of the lines it keeps. */
  lemma {:induction false} WithoutIdsAppend(a: seq<CartLine>, b: seq<CartLine>, ids: set<string>)
    ensures WithoutIds(a + b, ids) == WithoutIds(a, ids) + WithoutIds(b, ids)
  {
    if a != [] {
      assert (a + b)[0] == a[0] && (a + b)[1..] == a[1..] + b;
      WithoutIdsAppend(a[1..], b, ids);
      if a[0].id !in ids {
        assert [a[0]] + WithoutIds(a[1..], ids) + WithoutIds(b, ids)
            == [a[0]] + (WithoutIds(a[1..], ids) + WithoutIds(b, ids));
      }
    } else {
      assert a + b == b;
    }
  }

  /** With pickup chosen every line stays; otherwise the pickup-only lines go. */
  function FilterItems(items: seq<CartLine>, pickup: bool, pickupOnlyIds: set<string>): (r: seq<CartLine>)
    ensures pickup ==> r == items
    ensures !pickup ==> forall k :: 0 <= k < |r| ==> r[k].id !in pickupOnlyIds
    ensures forall x :: x in r <==> x in items && (pickup || x.id !in pickupOnlyIds)
    ensures multiset(r) <= multiset(items)
    ensures forall x: CartLine :: (pickup || x.id !in pickupOnlyIds) ==> multiset(r)[x] == multiset(items)[x]
  {
    if pickup then items
    else
      WithoutIdsMembers(items, pickupOnlyIds);
      WithoutIds(items, pickupOnlyIds)
  }

  // ---------------------------------------------------------------------------
  // 3) Line items
  // ---------------------------------------------------------------------------

  /** `Number(qty) || 1`: a zero quantity becomes 1, any other is kept. */
  function Quantity(qty: int): (q: int)
    ensures q != 0
    ensures qty != 0 ==> q == qty
    ensures qty == 0 ==> q == 1
  {
    if qty == 0 then 1 else qty
  }

  /** `variant?.stripe_price_id || product.stripe_price_id`. */
  function PriceIdOf(p: Product, id: string): string
  {
    match FindVariant(p, id)
    case Some(v) => if v.stripePriceId != "" then v.stripePriceId else p.stripePriceId
    case None => p.stripePriceId
  }

  /** `price` is the price id of a product that `id` designates, or of its variant named `id`. */
  ghost predicate PriceInCatalog(catalog: seq<Product>, id: string, price: string)
  {
    exists k :: 0 <= k < |catalog| && Designates(catalog[k], id) &&
      (price == catalog[k].stripePriceId ||
       exists m :: 0 <= m < |catalog[k].variants| && catalog[k].variants[m].id == id
                && catalog[k].variants[m].stripePriceId == price)
  }

  /** One cart line mapped to a line item, or dropped (`null`). */
  function ResolveLine(catalog: seq<Product>, line: CartLine): (r: Option<LineItem>)
    ensures FindProduct(catalog, line.id).None? ==> r.None?
    ensures r.Some? ==> r.value.price != "" && r.value.quantity == Quantity(line.qty)
    ensures r.Some? ==> PriceInCatalog(catalog, line.id, r.value.price)
  {
    match FindProduct(catalog, line.id)
    case None => None
    case Some(p) =>
      var priceId := PriceIdOf(p, line.id);
      if priceId == "" then None else Some(LineItem(priceId, Quantity(line.qty)))
  }

  /**
   * The price id of a line: the matched variant's id when it is non-empty, the
   * product's otherwise; a line is dropped only when both are empty.
   */
  lemma ResolveLinePriceChoice(catalog: seq<Product>, line: CartLine, p: Product)
    requires FindProduct(catalog, line.id) == Some(p)
    ensures forall v :: FindVariant(p, line.id) == Some(v) && v.stripePriceId != "" ==>
              ResolveLine(catalog, line) == Some(LineItem(v.stripePriceId, Quantity(line.qty)))
    ensures (FindVariant(p, line.id).None? || FindVariant(p, line.id).value.stripePriceId == "") ==>
              ResolveLine(catalog, line) ==
                (if p.stripePriceId == "" then None else Some(LineItem(p.stripePriceId, Quantity(line.qty))))
  {
  }

  /** `.filter(Boolean)` after the map: the present values, in order. */
  function Present<T>(s: seq<Option<T>>): (r: seq<T>)
    ensures |r| <= |s|
    ensures forall k :: 0 <= k < |r| ==> Some(r[k]) in s
    ensures r == [] <==> forall m :: 0 <= m < |s| ==> s[m].None?
    ensures |r| == |s| <==> forall m :: 0 <= m < |s| ==> s[m].Some?
  {
    if s == [] then []
    else
      var rest := Present(s[1..]);
      assert forall m :: 1 <= m < |s| ==> s[1..][m - 1] == s[m];
      match s[0]
      case None => rest
      case Some(v) => [v] + rest
  }

  /** The present values of concatenated sequences are those of each part, in order. */
  lemma {:induction false} PresentAppend<T>(a: seq<Option<T>>, b: seq<Option<T>>)
    ensures Present(a + b) == Present(a) + Present(b)
  {
    if a != [] {
      assert (a + b)[0] == a[0] && (a + b)[1..] == a[1..] + b;
      PresentAppend(a[1..], b);
      if a[0].Some? {
        assert [a[0].value] + Present(a[1..]) + Present(b) == [a[0].value] + (Present(a[1..]) + Present(b));
      }
    } else {
      assert a + b == b;
    }
  }

  /** A single value is kept when present and dropped when absent. */
  lemma PresentSingle<T>(o: Option<T>)
    ensures Present([o]) == if o.Some? then [o.value] else []
  {
    assert [o][1..] == [];
  }

  /** `items.map(...)`: each cart line resolved, position by position. */
  function Resolved(catalog: seq<Product>, lines: seq<CartLine>): (r: seq<Option<LineItem>>)
    ensures |r| == |lines|
    ensures forall m :: 0 <= m < |lines| ==> r[m] == ResolveLine(catalog, lines[m])
  {
    seq(|lines|, m requires 0 <= m < |lines| => ResolveLine(catalog, lines[m]))
  }

  /** The handler's `line_items`: every cart line resolved, the dropped ones left out. */
  function LineItems(catalog: seq<Product>, lines: seq<CartLine>): (r: seq<LineItem>)
    ensures |r| <= |lines|
    ensures forall k :: 0 <= k < |r| ==>
              exists m :: 0 <= m < |lines| && ResolveLine(catalog, lines[m]) == Some(r[k])
    ensures forall k :: 0 <= k < |r| ==> r[k].price != "" && r[k].quantity != 0
    ensures r == [] <==> forall m :: 0 <= m < |lines| ==> ResolveLine(catalog, lines[m]).None?
    ensures |r| == |lines| <==> forall m :: 0 <= m < |lines| ==> ResolveLine(catalog, lines[m]).Some?
  {
    Present(Resolved(catalog, lines))
  }

  /** A single line gives its item when it resolves and nothing otherwise. */
  lemma LineItemsSingle(catalog: seq<Product>, line: CartLine)
    ensures LineItems(catalog, [line]) ==
              if ResolveLine(catalog, line).Some? then [ResolveLine(catalog, line).value] else []
  {
    assert Resolved(catalog, [line]) == [ResolveLine(catalog, line)];
    PresentSingle(ResolveLine(catalog, line));
  }

  /** The line items of a cart are those of its parts, in cart order. */
  lemma LineItemsAppend(catalog: seq<Product>, a: seq<CartLine>, b: seq<CartLine>)
    ensures LineItems(catalog, a + b) == LineItems(catalog, a) + LineItems(catalog, b)
  {
    assert Resolved(catalog, a + b) == Resolved(catalog, a) + Resolved(catalog, b);
    PresentAppend(Resolved(catalog, a), Resolved(catalog, b));
  }

  // ---------------------------------------------------------------------------
  // 4) Subtotal
  // ---------------------------------------------------------------------------

  /** `variant?.price ?? product?.price ?? 0`: the unit price in cents. */
  function UnitPrice(catalog: seq<Product>, id: string): (price: int)
  {
    match FindProduct(catalog, id)
    case None => 0
    case Some(p) =>
      var fallback := if p.price.Some? then p.price.value else 0;
      match FindVariant(p, id)
      case Some(v) => if v.price.Some? then v.price.value else fallback
      case None => fallback
  }

  /** A variant's own price wins when present (even 0); otherwise the product's, otherwise 0. */
  lemma UnitPriceChoice(catalog: seq<Product>, id: string, p: Product)
    requires FindProduct(catalog, id) == Some(p)
    ensures forall v :: FindVariant(p, id) == Some(v) && v.price.Some? ==> UnitPrice(catalog, id) == v.price.value
    ensures (FindVariant(p, id).None? || FindVariant(p, id).value.price.None?) ==>
              UnitPrice(catalog, id) == (if p.price.Some? then p.price.value else 0)
  {
  }

  /** The subtotal in cents over the filtered lines, resolvable to a price id or not. */
  function Subtotal(catalog: seq<Product>, lines: seq<CartLine>): int
  {
    if lines == [] then 0
    else UnitPrice(catalog, lines[0].id) * Quantity(lines[0].qty) + Subtotal(catalog, lines[1..])
  }

  /** The subtotal adds up line by line, dropped lines included. */
  lemma {:induction false} SubtotalAppend(catalog: seq<Product>, a: seq<CartLine>, b: seq<CartLine>)
    ensures Subtotal(catalog, a + b) == Subtotal(catalog, a) + Subtotal(catalog, b)
  {
    if a != [] {
      assert (a + b)[0] == a[0] && (a + b)[1..] == a[1..] + b;
      SubtotalAppend(catalog, a[1..], b);
    } else {
      assert a + b == b;
    }
  }

  /** A line whose id designates no product adds nothing to the subtotal. */
  lemma UnknownIdAddsNothing(catalog: seq<Product>, lines: seq<CartLine>, line: CartLine)
    requires forall k :: 0 <= k < |catalog| ==> !Designates(catalog[k], line.id)
    ensures Subtotal(catalog, lines + [line]) == Subtotal(catalog, lines)
  {
    SubtotalAppend(catalog, lines, [line]);
  }

  // ---------------------------------------------------------------------------
  // 5) Weight and tier
  // ---------------------------------------------------------------------------

  /** The total guessed weight in grams of the filtered lines. */
  function TotalWeight(lines: seq<CartLine>): int
  {
    if lines == [] then 0
    else GuessWeightG(lines[0].id) * Quantity(lines[0].qty) + TotalWeight(lines[1..])
  }

  /** The total weight adds up line by line. */
  lemma {:induction false} TotalWeightAppend(a: seq<CartLine>, b: seq<CartLine>)
    ensures TotalWeight(a + b) == TotalWeight(a) + TotalWeight(b)
  {
    if a != [] {
      assert (a + b)[0] == a[0] && (a + b)[1..] == a[1..] + b;
      TotalWeightAppend(a[1..], b);
    } else {
      assert a + b == b;
    }
  }

  /** Arithmetic helper: a product of two non-negative factors is not negative. */
  lemma ProductNonNegative(a: int, b: int)
    requires a >= 0 && b >= 0
    ensures a * b >= 0
  {
  }

  /** With no negative quantity, the total weight is not negative. */
  lemma {:induction false} TotalWeightNonNegative(lines: seq<CartLine>)
    requires forall k :: 0 <= k < |lines| ==> lines[k].qty >= 0
    ensures TotalWeight(lines) >= 0
  {
    if lines != [] {
      TotalWeightNonNegative(lines[1..]);
      ProductNonNegative(GuessWeightG(lines[0].id), Quantity(lines[0].qty));
    }
  }

  /** The weight tier: the smallest of 2, 5 and 10 kg that holds the weight, 10 kg beyond. */
  function TierFor(totalWeightG: int): (tier: string)
    ensures tier in TIERS && tier in EU
    ensures tier == "2kg" <==> totalWeightG <= 2000
    ensures tier == "5kg" <==> 2000 < totalWeightG <= 5000
    ensures tier == "10kg" <==> 5000 < totalWeightG
  {
    if totalWeightG <= 2000 then "2kg" else if totalWeightG <= 5000 then "5kg" else "10kg"
  }

  /** The position of a tier in the order 2kg < 5kg < 10kg. */
  function TierRank(tier: string): nat
  {
    if tier == "2kg" then 0 else if tier == "5kg" then 1 else 2
  }

  /** A heavier cart never gets a lighter tier. */
  lemma TierMonotone(w1: int, w2: int)
    requires w1 <= w2
    ensures TierRank(TierFor(w1)) <= TierRank(TierFor(w2))
  {
  }

  // ---------------------------------------------------------------------------
  // 6) Shipping option and session
  // ---------------------------------------------------------------------------

  /** The shipping rate id when shipping is allowed: free from 60 EUR, else the EU tier rate. */
  function ShippingRateId(subtotal: int, tier: string): (rateId: string)
    requires tier in EU
    ensures rateId == FREE_AB60 <==> subtotal >= FREE_SHIPPING_FROM
    ensures subtotal < FREE_SHIPPING_FROM ==> rateId == EU[tier]
  {
    FreeRateDistinct();
    if subtotal >= FREE_SHIPPING_FROM then FREE_AB60 else EU[tier]
  }

  /** The base session with the shipping fields of a shipping or a pickup order. */
  function BuildSession(lineItems: seq<LineItem>, shippingAllowed: bool, subtotal: int, tier: string): Session
    requires tier in EU
  {
    var base := Session(["card"], "payment", lineItems, true, None, []);
    if shippingAllowed then
      base.(allowedCountries := Some(ALLOWED_COUNTRIES),
            shippingOptions := [RateOption(ShippingRateId(subtotal, tier))])
    else
      base.(shippingOptions := [PICKUP_OPTION])
  }

  // ---------------------------------------------------------------------------
  // The handler
  // ---------------------------------------------------------------------------

  /**
   * What the handler computes from a request and the catalog. An error `e` is
   * answered with status 400 and the text `Message(e)`.
   */
  function ResolveCart(req: Request, catalog: seq<Product>): (r: Result<Session, CheckoutError>)
    ensures r == Err(NoItems) <==> req.items.None? || req.items.value == []
    ensures r == Err(NoValidPrices) <==>
              req.items.Some? && req.items.value != [] &&
              LineItems(catalog, FilterItems(req.items.value, req.pickup, PickupOnlyIds(catalog))) == []
    ensures r.Ok? ==>
              r.value.lineItems == LineItems(catalog, FilterItems(req.items.value, req.pickup, PickupOnlyIds(catalog)))
    ensures r.Ok? ==> 0 < |r.value.lineItems| <= |req.items.value|
    ensures r.Ok? ==> forall k :: 0 <= k < |r.value.lineItems| ==>
                        r.value.lineItems[k].price != "" && r.value.lineItems[k].quantity != 0
    ensures r.Ok? ==> r.value.mode == "payment" && r.value.paymentMethodTypes == ["card"]
                      && r.value.allowPromotionCodes && |r.value.shippingOptions| == 1
    ensures r.Ok? && req.pickup ==> r.value.allowedCountries.None? && r.value.shippingOptions == [PICKUP_OPTION]
    ensures r.Ok? && !req.pickup ==>
              var filtered := FilterItems(req.items.value, false, PickupOnlyIds(catalog));
              var subtotal := Subtotal(catalog, filtered);
              && r.value.allowedCountries == Some(ALLOWED_COUNTRIES)
              && r.value.shippingOptions[0].RateOption?
              && (r.value.shippingOptions[0].shippingRate == FREE_AB60 <==> subtotal >= FREE_SHIPPING_FROM)
              && (subtotal < FREE_SHIPPING_FROM ==>
                    r.value.shippingOptions[0].shippingRate == EU[TierFor(TotalWeight(filtered))])
  {
    if req.items.None? || req.items.value == [] then Err(NoItems)
    else
      var items := req.items.value;
      var filtered := FilterItems(items, req.pickup, PickupOnlyIds(catalog));
      var shippingAllowed := !req.pickup && |filtered| > 0;
      var lineItems := LineItems(catalog, filtered);
      if lineItems == [] then Err(NoValidPrices)
      else
        var subtotal := Subtotal(catalog, filtered);
        var tier := TierFor(TotalWeight(filtered));
        Ok(BuildSession(lineItems, shippingAllowed, subtotal, tier))
  }

  /** The handler body, step by step; the payment processor call follows it. */
  method CreateCheckoutSession(req: Request, catalog: seq<Product>) returns (r: Result<Session, CheckoutError>)
    ensures r == ResolveCart(req, catalog)
  {
    if req.items.None? || |req.items.value| == 0 {
      return Err(NoItems);
    }
    var items := req.items.value;

    var pickupOnlyIds := CollectPickupOnlyIds(catalog);
    var filteredItems := FilterItems(items, req.pickup, pickupOnlyIds);
    var shippingAllowed := !req.pickup && |filteredItems| > 0;

    var lineItems := LineItems(catalog, filteredItems);
    if |lineItems| == 0 {
      return Err(NoValidPrices);
    }

    var subtotal := Subtotal(catalog, filteredItems);
    var totalWeightG := TotalWeight(filteredItems);

    var tier := "2kg";
    if totalWeightG <= 2000 {
      tier := "2kg";
    } else if totalWeightG <= 5000 {
      tier := "5kg";
    } else {
      tier := "10kg";
    }

    var session := Session(["card"], "payment", lineItems, true, None, []);
    if shippingAllowed {
      session := session.(allowedCountries := Some(ALLOWED_COUNTRIES));
      var rateId := if subtotal >= FREE_SHIPPING_FROM then FREE_AB60 else EU[tier];
      session := session.(shippingOptions := [RateOption(rateId)]);
    } else {
      session := session.(shippingOptions := [PICKUP_OPTION]);
    }
    return Ok(session);
  }

  // ---------------------------------------------------------------------------
  // Properties across operations
  // ---------------------------------------------------------------------------

  /** A shipping cart made only of pickup-only articles is rejected for want of prices. */
  lemma AllPickupOnlyRejected(catalog: seq<Product>, items: seq<CartLine>)
    requires items != []
    requires forall k :: 0 <= k < |items| ==> IsPickupOnlyId(catalog, items[k].id)
    ensures ResolveCart(Request(Some(items), false), catalog) == Err(NoValidPrices)
  {
    var ids := PickupOnlyIds(catalog);
    PickupOnlyIdsExactly(catalog);
    WithoutIdsAllRemoved(items, ids);
  }

  /** The allowed-country list names 27 distinct countries. */
  lemma AllowedCountriesDistinct()
    ensures |ALLOWED_COUNTRIES| == 27
    ensures forall i, j :: 0 <= i < j < |ALLOWED_COUNTRIES| ==> ALLOWED_COUNTRIES[i] != ALLOWED_COUNTRIES[j]
  {
  }

  /** "soap-500g" has no kg match, and its g match captures "500". */
  lemma SoapWeight()
    ensures GuessWeightG("soap-500g") == 500
  {
    var id := "soap-500g";
    forall k | 0 <= k < |id|
      ensures Lower(id[k]) != 'k' && (k < 5 ==> !IsDigit(id[k]))
    {
      assert k == 0 || k == 1 || k == 2 || k == 3 || k == 4 || k == 5 || k == 6 || k == 7 || k == 8;
    }
    NoUnitLetterNoMatch(id, "kg");
    assert LeftmostMatch(id, "g", 5, 8) by {
      assert MatchAt(id, "g", 5, 8);
      forall i, j | 0 <= i < 5
        ensures !MatchAt(id, "g", i, j)
      {
        assert !IsDigit(id[i]);
      }
    }
    assert id[5..8] == "500";
    assert DecimalValue("5") == 5 by {
      assert "5"[..0] == "";
    }
    assert DecimalValue("50") == 50 by {
      assert "50"[..1] == "5";
    }
    assert DecimalValue("500") == 500 by {
      assert "500"[..2] == "50";
    }
  }

  /**
   * One shipped line "soap-500g" with quantity 2 at 500 cents: 1000 g is the
   * 2 kg tier, the subtotal of 1000 cents is below the free-shipping threshold,
   * so the EU 2 kg rate applies.
   */
  lemma SoapScenario()
    ensures var soap := Product("soap-500g", [], Some(500), false, true, ["soap.jpg"], "price_soap");
            ResolveCart(Request(Some([CartLine("soap-500g", 2)]), false), [soap]) ==
              Ok(Session(["card"], "payment", [LineItem("price_soap", 2)], true,
                         Some(ALLOWED_COUNTRIES), [RateOption(EU["2kg"])]))
  {
    var id := "soap-500g";
    var soap := Product(id, [], Some(500), false, true, ["soap.jpg"], "price_soap");
    var lines := [CartLine(id, 2)];
    assert Designates(soap, id);
    assert PickupOnlyIds([soap]) == {};
    assert FilterItems(lines, false, {}) == lines;
    assert LineItems([soap], lines) == [LineItem("price_soap", 2)];
    assert Subtotal([soap], lines) == 1000;
    SoapWeight();
    assert GuessWeightG(id) == 500;
    assert TotalWeight(lines) == 1000;
  }
}
