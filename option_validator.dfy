/** The closed option tables offered by the configurator: colours, phone
    models, materials and finishes. */
module OptionValidator {
  import opened Wrappers
  import opened Products

  // `caption` is the source's `label` (a reserved word here).
  datatype ColorOption = ColorOption(caption: string, value: string, tw: string)

  datatype ModelOption = ModelOption(caption: string, value: string)

  /** Materials and finishes share one record shape; a missing description
      is `None`. */
  datatype PricedOption = PricedOption(caption: string, value: string, description: Option<string>, price: nat)

  datatype ModelGroup = ModelGroup(name: string, options: seq<ModelOption>)

  datatype PricedGroup = PricedGroup(name: string, options: seq<PricedOption>)

  const COLORS: seq<ColorOption> := [
    ColorOption("Black", "black", "zinc-900"),
    ColorOption("Blue", "blue", "blue-950"),
    ColorOption("Rose", "rose", "rose-950")
  ]

  const MODELS: ModelGroup := ModelGroup("models", [
    ModelOption("iPhone X", "iphonex"),
    ModelOption("iPhone 11", "iphone11"),
    ModelOption("iPhone 12", "iphone12"),
    ModelOption("iPhone 13", "iphone13"),
    ModelOption("iPhone 14", "iphone14"),
    ModelOption("iPhone 15", "iphone15"),
    ModelOption("iPhone 16", "iphone16")
  ])

  const MATERIALS: PricedGroup := PricedGroup("material", [
    PricedOption("Silicon", "silicon", None, PRODUCT_PRICES.material["silicon"]),
    PricedOption("Soft Polycarbonate", "polycarbonate", Some("Scratch-resistant coating"), PRODUCT_PRICES.material["polycarbonate"])
  ])

  const FINISHES: PricedGroup := PricedGroup("finish", [
    PricedOption("Smooth Finish", "smooth", None, PRODUCT_PRICES.finish["smooth"]),
    PricedOption("Textured Finish", "textured", Some("Soft grippy texture"), PRODUCT_PRICES.finish["textured"])
  ])

  predicate DistinctValues(ps: seq<PricedOption>)
  {
    forall i, j :: 0 <= i < j < |ps| ==> ps[i].value != ps[j].value
  }

  /** A priced table agrees with a surcharge table: each option's price is the
      surcharge keyed by its value token. */
  predicate PricedBy(ps: seq<PricedOption>, table: map<string, nat>)
  {
    forall i :: 0 <= i < |ps| ==> ps[i].value in table && ps[i].price == table[ps[i].value]
  }

  /** The first option of a priced table is the free default with no
      description; every other option is described. */
  predicate DefaultFirst(ps: seq<PricedOption>)
  {
    && |ps| > 0
    && ps[0].price == 0 && ps[0].description == None
    && forall i :: 0 < i < |ps| ==> ps[i].description.Some? && ps[i].description.value != ""
  }

  lemma ColorTable()
    ensures |COLORS| == 3
    ensures forall i, j :: 0 <= i < j < |COLORS| ==> COLORS[i].value != COLORS[j].value
  {
  }

  lemma ModelTable()
    ensures |MODELS.options| == 7
    ensures forall i, j :: 0 <= i < j < |MODELS.options| ==> MODELS.options[i].value != MODELS.options[j].value
  {
  }

  lemma PricedTables()
    ensures PricedBy(MATERIALS.options, PRODUCT_PRICES.material) && DistinctValues(MATERIALS.options)
    ensures PricedBy(FINISHES.options, PRODUCT_PRICES.finish) && DistinctValues(FINISHES.options)
    ensures DefaultFirst(MATERIALS.options) && DefaultFirst(FINISHES.options)
    ensures MATERIALS.name == "material" && FINISHES.name == "finish"
  {
  }
}
