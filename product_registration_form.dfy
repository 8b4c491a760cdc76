/**
 * The product registration form: the schema of a product record, the
 * values the form opens with, and when it shows the section for
 * biological inputs.
 */
module ProductRegistrationForm {

  import opened Wrappers

  /** The fields of the form the schema constrains beyond their type. */
  datatype ProductFormData = ProductFormData(
    name: string,
    brand: string,
    category: string,
    productType: string,
    formulationType: Option<string>,
    activity: Option<string>,
    physicalNature: Option<string>,
    unitOfMeasure: string,
    costPerUnit: real,
    toxicClass: Option<string>,
    environmentalClass: Option<string>,
    isActive: bool)

  const CATEGORIES: seq<string> := ["inoculant", "fertilizer", "pesticide", "herbicide", "fungicide",
                                    "insecticide", "soil_corrector", "biostimulant", "adjuvant"]
  const TYPES: seq<string> := ["biological", "chemical", "organic", "mineral"]
  const FORMULATION_TYPES: seq<string> := ["liquid", "solid", "powder", "granular", "emulsion", "suspension"]
  const ACTIVITIES: seq<string> := ["producer", "retailer", "both"]
  const PHYSICAL_NATURES: seq<string> := ["fluid", "solid"]
  const TOXIC_CLASSES: seq<string> := ["1", "2", "3", "4", "NT"]
  const ENVIRONMENTAL_CLASSES: seq<string> := ["I", "II", "III", "IV"]

  /** An optional enum field: absent, or one of the listed values. */
  predicate OptionalIn(v: Option<string>, allowed: seq<string>)
  {
    v.None? || v.value in allowed
  }

  /** `productRegistrationSchema`. */
  predicate ValidProductForm(d: ProductFormData)
  {
    1 <= |d.name| <= 200 && 1 <= |d.brand| <= 100
    && d.category in CATEGORIES && d.productType in TYPES
    && OptionalIn(d.formulationType, FORMULATION_TYPES)
    && OptionalIn(d.activity, ACTIVITIES)
    && OptionalIn(d.physicalNature, PHYSICAL_NATURES)
    && 1 <= |d.unitOfMeasure| <= 10 && d.costPerUnit >= 0.0
    && OptionalIn(d.toxicClass, TOXIC_CLASSES)
    && OptionalIn(d.environmentalClass, ENVIRONMENTAL_CLASSES)
  }

  /** The parts of a product the form may be opened with (`Partial<Product>`). */
  datatype InitialProduct = InitialProduct(
    name: Option<string>,
    brand: Option<string>,
    category: Option<string>,
    productType: Option<string>,
    formulationType: Option<string>,
    activity: Option<string>,
    physicalNature: Option<string>,
    unitOfMeasure: Option<string>,
    costPerUnit: Option<real>,
    toxicClass: Option<string>,
    environmentalClass: Option<string>,
    isActive: Option<bool>)

  /** `value || fallback` for a text: an empty text falls back too. */
  function TextOr(v: Option<string>, fallback: string): (r: string)
    ensures v.Some? && v.value != "" ==> r == v.value
    ensures v.None? || v.value == "" ==> r == fallback
  {
    if v.Some? && v.value != "" then v.value else fallback
  }

  /** `defaultValues`: a new product is a chemical fertilizer sold by the kg at no cost, and active. */
  function DefaultValues(init: Option<InitialProduct>): (d: ProductFormData)
    ensures init.None? ==> d == ProductFormData("", "", "fertilizer", "chemical", None, None, None, "kg", 0.0, None, None, true)
    ensures d.isActive <==> init.None? || init.value.isActive != Some(false)
    ensures d.costPerUnit == if init.Some? && init.value.costPerUnit.Some? then init.value.costPerUnit.value else 0.0
    ensures d.unitOfMeasure != "" && d.category != "" && d.productType != ""
  {
    match init
    case None => ProductFormData("", "", "fertilizer", "chemical", None, None, None, "kg", 0.0, None, None, true)
    case Some(i) =>
      ProductFormData(
        TextOr(i.name, ""),
        TextOr(i.brand, ""),
        TextOr(i.category, "fertilizer"),
        TextOr(i.productType, "chemical"),
        i.formulationType,
        i.activity,
        i.physicalNature,
        TextOr(i.unitOfMeasure, "kg"),
        if i.costPerUnit.Some? && i.costPerUnit.value != 0.0 then i.costPerUnit.value else 0.0,
        i.toxicClass,
        i.environmentalClass,
        i.isActive != Some(false))
  }

  /** A new form fails the schema only for want of a name and a brand. */
  lemma NewFormNeedsNameAndBrand(name: string, brand: string)
    requires 1 <= |name| <= 200 && 1 <= |brand| <= 100
    ensures !ValidProductForm(DefaultValues(None))
    ensures ValidProductForm(DefaultValues(None).(name := name, brand := brand))
  {
    var d := DefaultValues(None);
    assert d.category == CATEGORIES[1] && d.productType == TYPES[1];
  }

  /** Opening the form on a product that satisfies the schema gives back exactly that product's fields. */
  lemma EditingValidProductRoundTrips(d: ProductFormData)
    requires ValidProductForm(d)
    ensures DefaultValues(Some(InitialProduct(
      Some(d.name), Some(d.brand), Some(d.category), Some(d.productType), d.formulationType, d.activity,
      d.physicalNature, Some(d.unitOfMeasure), Some(d.costPerUnit), d.toxicClass, d.environmentalClass,
      Some(d.isActive)))) == d
  {
  }

  /** The section for biological inputs (EMBRAPA bio-input fields) is shown. */
  predicate ShowsBioInputSection(category: string, productType: string)
  {
    category == "inoculant" || productType == "biological"
  }

  /** A new form starts with the section hidden; choosing either trigger shows it whatever the other field says. */
  lemma BioInputSectionTriggers(category: string, productType: string)
    ensures !ShowsBioInputSection(DefaultValues(None).category, DefaultValues(None).productType)
    ensures ShowsBioInputSection("inoculant", productType) && ShowsBioInputSection(category, "biological")
    ensures category != "inoculant" && productType != "biological" ==> !ShowsBioInputSection(category, productType)
  {
  }
}
