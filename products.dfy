/** The price catalog: a base price and per-material and per-finish
    surcharges, all in integer cents. */
module Products {

  /** The two surcharge tables, keyed by the option's value token. */
  datatype PriceTable = PriceTable(material: map<string, nat>, finish: map<string, nat>)

  const PRODUCT_PRICES: PriceTable :=
    PriceTable(
      map["silicon" := 0, "polycarbonate" := 500],
      map["smooth" := 0, "textured" := 300])

  const BASE_PRICE: nat := 1400

  /** The price of the dearest case the catalog can describe. */
  const MAX_PRICE: nat := 2200

  /** The catalog's own entries, as the rest of the source reads them. */
  lemma CatalogEntries()
    ensures PRODUCT_PRICES.material.Keys == {"silicon", "polycarbonate"}
    ensures PRODUCT_PRICES.finish.Keys == {"smooth", "textured"}
    ensures PRODUCT_PRICES.material["silicon"] == 0 && PRODUCT_PRICES.material["polycarbonate"] == 500
    ensures PRODUCT_PRICES.finish["smooth"] == 0 && PRODUCT_PRICES.finish["textured"] == 300
    ensures BASE_PRICE == 1400
  {
  }

  /** Every base-plus-surcharges sum lies in [BASE_PRICE, MAX_PRICE], and the
      upper end is reached by the dearest material with the dearest finish. */
  lemma PriceRange(material: string, finish: string)
    requires material in PRODUCT_PRICES.material && finish in PRODUCT_PRICES.finish
    ensures BASE_PRICE <= BASE_PRICE + PRODUCT_PRICES.material[material] + PRODUCT_PRICES.finish[finish] <= MAX_PRICE
    ensures BASE_PRICE + PRODUCT_PRICES.material["polycarbonate"] + PRODUCT_PRICES.finish["textured"] == MAX_PRICE
  {
  }
}
