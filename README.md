# Checkout-session computation of a small shop backend

This project models, in Dafny, the part of the shop's Express server that turns a
cart into a payment-processor checkout session (`POST /api/create-checkout-session`)
together with the static shipping-rate table it consults:

- the set of pickup-only ids (pickup-only products and all their variants);
- the cart filter: with pickup every line stays, with shipping the pickup-only lines go;
- whether shipping is allowed (no pickup and a non-empty filtered cart);
- resolution of each line to a processor price id (the matched variant's id if
  non-empty, else the product's), silently dropping unresolvable lines, and the
  quantity rule `Number(qty) || 1`;
- the subtotal in cents, taken over the filtered lines whether resolved or not;
- the weight guessed from the id (`(\d+)kg`, else `(\d+)g`, case-insensitive, leftmost
  match) and the weight tier 2kg / 5kg / 10kg;
- the shipping option: free-shipping rate from 6000 cents, else the EU rate of the
  tier, or a zero-amount "Nur Abholung im Store" option for pickup;
- the checkout-ready count that the catalog loader reports.

Modules: `Wrappers` (Option, Result), `ShippingRates` (the `SHIPPING` constant),
`Catalog` (products, variants, `find`-style lookups, checkout-ready count),
`WeightGuess` (the pattern semantics as ghost predicates and a scan proved to return
the leftmost match), `Checkout` (the handler). In `Checkout`, `ResolveCart` is the
pure specification of the whole handler, and `CreateCheckoutSession` is the handler
body written step by step (the loop collecting pickup-only ids, the reassigned tier,
the session value that gains its shipping fields), proved equal to it.

Representation choices: a cart line's `qty` is an integer; a missing price is
`None` (so `??` keeps a price of 0); a missing or empty `stripe_price_id` is `""`
(the falsy cases of `||`); a missing `variants` or `images` field is the empty
sequence; a missing `available` field is `true`, since only `available: false`
excludes a product; `items` that is not an array is `None`.

The weight pattern is matched anywhere in the id, not only as a trailing token; a
negative quantity is kept as it is (only 0 becomes 1), so subtotal and weight can be
negative.

## Model

| member | source | states |
|---|---|---|
| `ShippingRates.EuCoversExactlyTiers` | shipping_rates.js:15-19 | the EU table has a rate id for exactly the tiers "2kg", "5kg", "10kg" |
| `ShippingRates.DeSameTiersAsEu` | shipping_rates.js:7-19 | the domestic table is keyed by the same three tiers as the EU table |
| `ShippingRates.FreeRateDistinct` | shipping_rates.js:4-19 | the free-shipping rate id differs from every EU and every DE rate id |
| `ShippingRates.EuInjective` | shipping_rates.js:16-18 | distinct tiers have distinct EU rate ids |
| `Catalog.FindIndex` | server.js:128 | `find` semantics: the returned position satisfies the predicate and no earlier one does; none is returned iff no element satisfies it |
| `Catalog.FindProduct` | server.js:128 | the product found is designated by the id (own id or a variant id) and is the first such in the catalog; none iff no product is designated |
| `Catalog.FindVariant` | server.js:131 | the variant found is the first of the product's variants with the id; none iff no variant has the id |
| `Catalog.CountCheckoutReady` | server.js:61-64 | the count is at most the catalog size, equals it iff every product is available with an image, and is 0 iff none is |
| `Catalog.CountCheckoutReadySingle` | server.js:62-64 | one product counts 1 iff it is available with at least one image |
| `Catalog.CountCheckoutReadyAppend` | server.js:62-64 | the count adds up over concatenated catalogs, so with the single case it is the number of checkout-ready products |
| `WeightGuess.FindMatch` | server.js:152-155 | the scan returns a match of `(\d+)<unit>` with no match starting earlier; it returns nothing iff there is no match at all |
| `WeightGuess.LeftmostUnique` | server.js:152-155 | the leftmost match, start and captured digits, is unique |
| `WeightGuess.LeftmostIsMaximalRun` | server.js:152-155 | the captured digits of the leftmost match are a maximal digit run (no digit right before) |
| `WeightGuess.LeftmostExists` | server.js:152-155 | a pattern that matches somewhere has a leftmost match |
| `WeightGuess.NoUnitLetterNoMatch` | server.js:152-156 | an id without the unit's letter in either case has no match |
| `WeightGuess.GuessWeightG` | server.js:151-157 | a kg match anywhere wins: weight is 1000 times the leftmost kg digits; else the leftmost g digits; else 0 |
| `Checkout.VariantIdsExactly` | server.js:114 | the collected variant ids are exactly the ids of the variants |
| `Checkout.PickupOnlyIdsExactly` | server.js:110-116 | an id is in the pickup-only set iff it is the id of a pickup-only product or of one of its variants |
| `Checkout.CollectPickupOnlyIds` | server.js:110-116 | the loop over the catalog builds exactly the pickup-only set, and nothing else is in it |
| `Checkout.WithoutIds` | server.js:121 | the filtered cart is no longer than the cart and none of its lines has an id in the set |
| `Checkout.WithoutIdsMembers` | server.js:121 | a line is kept iff it is in the cart and its id is outside the set; the result is a sub-multiset of the cart, and a kept line occurs exactly as often as in the cart |
| `Checkout.WithoutIdsAllRemoved` | server.js:121 | a cart whose every id is in the set is filtered to the empty cart |
| `Checkout.WithoutIdsAppend` | server.js:121 | the filter distributes over concatenation, so it keeps the order of the lines it keeps |
| `Checkout.FilterItems` | server.js:119-121 | with pickup the cart is unchanged; otherwise no pickup-only line remains, a line stays iff it is in the cart and not pickup-only, and each kept line occurs exactly as often as in the cart |
| `Checkout.Quantity` | server.js:135 | the quantity is never 0: 0 becomes 1, any other value is kept |
| `Checkout.ResolveLine` | server.js:127-135 | a line whose id designates no product is dropped; an emitted item has a non-empty price id from a product or variant the id designates, and the line's quantity rule |
| `Checkout.ResolveLinePriceChoice` | server.js:131-133 | the matched variant's non-empty price id wins; otherwise the product's, and the line is dropped when that is empty too |
| `Checkout.Present` | server.js:136 | `filter(Boolean)`: at most as many values, each one present in the input; empty iff all are absent; none lost iff all are present |
| `Checkout.PresentAppend` | server.js:136 | the filter distributes over concatenation, so it keeps order and multiplicity |
| `Checkout.PresentSingle` | server.js:136 | a present value is kept, an absent one dropped |
| `Checkout.Resolved` | server.js:127-135 | the map resolves each cart line at its own position |
| `Checkout.LineItems` | server.js:127-136 | at most one item per filtered line, each the resolution of some line with a non-empty price id and non-zero quantity; empty iff no line resolves |
| `Checkout.LineItemsSingle` | server.js:127-136 | one cart line gives exactly its resolved item, or nothing when it does not resolve |
| `Checkout.LineItemsAppend` | server.js:127-136 | the line items of a cart are those of its parts in cart order: with the single case, every resolving line contributes its item once, in order |
| `Checkout.UnitPriceChoice` | server.js:144-146 | a variant's own price wins when present (even 0); else the product's price; else 0 |
| `Checkout.SubtotalAppend` | server.js:143-148 | the subtotal adds line by line over the filtered cart, lines dropped from the line items included |
| `Checkout.UnknownIdAddsNothing` | server.js:143-148 | a line whose id designates no product contributes 0 to the subtotal |
| `Checkout.TotalWeightAppend` | server.js:159-161 | the total weight adds up line by line over concatenated carts |
| `Checkout.TotalWeightNonNegative` | server.js:159-161 | with no negative quantity the total guessed weight is not negative |
| `Checkout.TierFor` | server.js:163-166 | "2kg" iff weight is at most 2000 g, "5kg" iff above 2000 and at most 5000, "10kg" above 5000; always an EU key |
| `Checkout.TierMonotone` | server.js:163-166 | a heavier cart never gets a lighter tier |
| `Checkout.ShippingRateId` | server.js:189-191 | the rate is the free-shipping id iff the subtotal is at least 6000, whatever the tier; below that it is the EU rate of the tier |
| `Checkout.ResolveCart` | server.js:103-202 | no items or a non-array is "Keine Artikel im Warenkorb"; no resolvable line is "Keine gültigen Stripe-Preise gefunden"; a built session carries exactly the line items of the filtered cart (1 to n valid ones), payment mode, card, promotion codes and one shipping option; with pickup it is the zero-amount pickup option, without pickup shipping is allowed: the 27 countries and the free or EU tier rate |
| `Checkout.CreateCheckoutSession` | server.js:103-202 | the step-by-step handler body computes exactly `ResolveCart` |
| `Checkout.AllPickupOnlyRejected` | server.js:118-140 | a shipping cart made only of pickup-only articles is rejected for want of valid prices |
| `Checkout.AllowedCountriesDistinct` | server.js:181-185 | the shipping-address allow-list holds 27 distinct country codes |
| `Checkout.SoapWeight` | server.js:151-157 | "soap-500g" weighs 500 g |
| `Checkout.SoapScenario` | server.js:119-193 | two "soap-500g" at 500 cents, shipped: one line item of quantity 2, 1000 g is tier 2kg, 1000 cents is below the threshold, so the EU 2kg rate applies |

## Left out

- HTTP plumbing: Express routing, middleware order, static files, `app.listen` and its error handling (server.js:16-20, 52-53, 74-94), and the status codes of the responses.
- Reading and parsing `products.json` (server.js:55-72): the catalog is an input sequence; the fail-open policy that yields an empty catalog on a read or parse error, and a parsed value that is not an array, are not modelled.
- The payment-processor calls: creating the session (server.js:204-205) and verifying webhook signatures (server.js:27-47); they are a foreign library. The failure path to status 500 is not modelled.
- Configuration and environment (`dotenv`, keys, `PORT`), the success and cancel URLs built from `FRONTEND_URL` (server.js:174-175), and all console logging.
- JavaScript number coercion: `qty` that is absent, non-numeric, fractional or NaN; prices that are not integers; digit runs so long that `Number` loses precision (the model's decimal value is exact).
- Dynamic typing of the request: ids that are not strings (where `id.match` would throw), `pickup` values other than booleans, and cart entries that are not objects.
- The domestic `DE` table is modelled with the rate table but, as in the handler, never used to choose a rate.
