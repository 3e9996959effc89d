/**
 * The product catalog as the checkout handler reads it: products with optional
 * variants, looked up by product id or by variant id.
 */
module Catalog {
  import opened Wrappers

  /**
   * A variant of a product. `price` is `None` when the field is absent;
   * `stripePriceId` is "" when the field is absent or empty (both are falsy).
   */
  datatype Variant = Variant(id: string, price: Option<int>, stripePriceId: string)

  /**
   * A catalog entry. A missing `variants` field is the empty sequence, a missing
   * `available` field is `true` (only an explicit `false` makes a product
   * unavailable), and a missing or non-array `images` field is the empty sequence.
   */
  datatype Product = Product(
    id: string,
    variants: seq<Variant>,
    price: Option<int>,
    pickupOnly: bool,
    available: bool,
    images: seq<string>,
    stripePriceId: string)

  /** `Array.prototype.find` as an index: the first position whose element satisfies `f`. */
  function FindIndex<T>(s: seq<T>, f: T -> bool): (r: Option<nat>)
    ensures r.Some? ==> r.value < |s| && f(s[r.value])
    ensures r.Some? ==> forall k :: 0 <= k < r.value ==> !f(s[k])
    ensures r.None? <==> forall k :: 0 <= k < |s| ==> !f(s[k])
  {
    if s == [] then None
    else if f(s[0]) then Some(0)
    else
      match FindIndex(s[1..], f)
      case None => None
      case Some(k) => Some(k + 1)
  }

  /** A cart id designates a product when it is the product's own id or one of its variants' ids. */
  predicate Designates(p: Product, id: string)
  {
    p.id == id || exists k :: 0 <= k < |p.variants| && p.variants[k].id == id
  }

  /** The first product that `id` designates (`allProducts.find(...)` in the handler). */
  function FindProduct(catalog: seq<Product>, id: string): (r: Option<Product>)
    ensures r.Some? ==> Designates(r.value, id)
    ensures r.Some? ==> exists k :: 0 <= k < |catalog| && catalog[k] == r.value
                                  && forall j :: 0 <= j < k ==> !Designates(catalog[j], id)
    ensures r.None? <==> forall k :: 0 <= k < |catalog| ==> !Designates(catalog[k], id)
  {
    match FindIndex(catalog, p => Designates(p, id))
    case None => None
    case Some(k) => Some(catalog[k])
  }

  /** The first variant of `p` whose id is `id` (`product.variants?.find(...)`). */
  function FindVariant(p: Product, id: string): (r: Option<Variant>)
    ensures r.Some? ==> r.value.id == id
    ensures r.Some? ==> exists k :: 0 <= k < |p.variants| && p.variants[k] == r.value
                                  && forall j :: 0 <= j < k ==> p.variants[j].id != id
    ensures r.None? <==> forall k :: 0 <= k < |p.variants| ==> p.variants[k].id != id
  {
    match FindIndex(p.variants, (v: Variant) => v.id == id)
    case None => None
    case Some(k) => Some(p.variants[k])
  }

  /** A product counts as checkout-ready when it is available and has at least one image. */
  predicate CheckoutReady(p: Product)
  {
    p.available && |p.images| > 0
  }

  /** The number of checkout-ready products that `readProducts` reports when it loads the catalog. */
  function CountCheckoutReady(catalog: seq<Product>): (n: nat)
    ensures n <= |catalog|
    ensures n == |catalog| <==> forall k :: 0 <= k < |catalog| ==> CheckoutReady(catalog[k])
    ensures n == 0 <==> forall k :: 0 <= k < |catalog| ==> !CheckoutReady(catalog[k])
  {
    if catalog == [] then 0
    else (if CheckoutReady(catalog[0]) then 1 else 0) + CountCheckoutReady(catalog[1..])
  }

  /** A single product counts 1 when it is checkout-ready and 0 otherwise. */
  lemma CountCheckoutReadySingle(p: Product)
    ensures CountCheckoutReady([p]) == if CheckoutReady(p) then 1 else 0
  {
    assert [p][1..] == [];
  }

  /** The count adds up over concatenated catalogs, so it is the number of ready products. */
  lemma {:induction false} CountCheckoutReadyAppend(a: seq<Product>, b: seq<Product>)
    ensures CountCheckoutReady(a + b) == CountCheckoutReady(a) + CountCheckoutReady(b)
  {
    if a != [] {
      assert (a + b)[0] == a[0] && (a + b)[1..] == a[1..] + b;
      CountCheckoutReadyAppend(a[1..], b);
    } else {
      assert a + b == b;
    }
  }
}
