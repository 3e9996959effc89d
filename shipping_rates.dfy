/**
 * The static shipping-rate table: one rate id for free shipping from 60 EUR,
 * and one rate id per weight tier for Germany (DE) and for the rest of the EU.
 * Rate ids are opaque tokens issued by the payment processor.
 */
module ShippingRates {

  /** The weight tiers, the keys of both regional tables. */
  const TIERS: set<string> := {"2kg", "5kg", "10kg"}

  /** Free shipping from a subtotal of 60 EUR. */
  const FREE_AB60: string := "shr_1Sgmrb7Vrq9QN3jU5XtgW2No"

  /** Domestic (DHL Germany) rates by weight tier. */
  const DE: map<string, string> := map[
    "2kg" := "shr_1Sgn2D7Vrq9QN3jU2uGhJugy",
    "5kg" := "shr_1Sgn347Vrq9QN3jUwQSrLE1g",
    "10kg" := "shr_1Sgn3a7Vrq9QN3jU6y2hjC7w"
  ]

  /** Rates for the rest of the EU (DHL) by weight tier. */
  const EU: map<string, string> := map[
    "2kg" := "shr_1SgogZ7Vrq9QN3jUnR0fCuQt",
    "5kg" := "shr_1SgohB7Vrq9QN3jJUGmnWRmtnX",
    "10kg" := "shr_1Sgoi07Vrq9QN3jUWpCe3E015"
  ]

  /** The EU table has a rate for exactly the three weight tiers. */
  lemma EuCoversExactlyTiers()
    ensures EU.Keys == TIERS
  {
  }

  /** The domestic table is keyed by the same tiers as the EU table. */
  lemma DeSameTiersAsEu()
    ensures DE.Keys == EU.Keys
  {
  }

  /** The free-shipping rate id is none of the tier rate ids. */
  lemma FreeRateDistinct()
    ensures FREE_AB60 !in EU.Values
    ensures FREE_AB60 !in DE.Values
  {
  }

  /** Different tiers have different EU rate ids. */
  lemma EuInjective()
    ensures forall t1, t2 :: t1 in EU && t2 in EU && t1 != t2 ==> EU[t1] != EU[t2]
  {
  }
}
