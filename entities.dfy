/**
 * The records the application passes around: plots, harvests (productions),
 * cycle categories, soil-preparation recipes and their actions, category
 * history entries and agricultural products. Dates are ISO-8601 texts, the
 * form in which they are stored and compared; areas and money are exact reals.
 */
module Entities {

  import opened Wrappers

  /** The four states a plot can be in. */
  datatype PlotStatus = Active | Reform | Rotation | New

  /** The text stored in the `status` column. */
  function StatusName(s: PlotStatus): (name: string)
    ensures |name| > 0
  {
    match s
    case Active => "active"
    case Reform => "reform"
    case Rotation => "rotation"
    case New => "new"
  }

  /** The status a stored text denotes, if any. */
  function ParseStatus(name: string): (r: Option<PlotStatus>)
    ensures r.Some? ==> StatusName(r.value) == name
  {
    if name == "active" then Some(Active)
    else if name == "reform" then Some(Reform)
    else if name == "rotation" then Some(Rotation)
    else if name == "new" then Some(New)
    else None
  }

  /** Every status survives being stored as text and read back. */
  lemma StatusNameRoundTrip(s: PlotStatus)
    ensures ParseStatus(StatusName(s)) == Some(s)
  {
  }

  /** A field of land (talhão). */
  datatype Plot = Plot(
    id: string,
    number: int,
    name: Option<string>,
    area: real,
    currentCycle: int,
    plantingDate: string,
    lastHarvestDate: Option<string>,
    status: PlotStatus,
    soilType: Option<string>,
    notes: Option<string>,
    createdAt: Option<string>,
    updatedAt: Option<string>)

  /** One harvest of one plot. */
  datatype Production = Production(
    id: string,
    plotId: string,
    cycle: int,
    harvestDate: string,
    tonnage: real,
    atr: real,
    revenue: real,
    costs: real,
    notes: Option<string>,
    createdAt: Option<string>)

  /** One product application step of a soil-preparation recipe. */
  datatype SoilPreparationAction = SoilPreparationAction(
    id: string,
    soilPreparationId: string,
    productId: string,
    dosage: real,
    dosageUnit: string,
    applicationMethod: Option<string>,
    engineerReportBlob: Option<string>,
    order: int)

  /** A soil-preparation recipe. */
  datatype SoilPreparation = SoilPreparation(
    id: string,
    name: string,
    description: Option<string>,
    actions: seq<SoilPreparationAction>,
    totalCost: real,
    estimatedDuration: int,
    createdAt: string,
    updatedAt: string)

  /**
   * A cycle category (0 = reform, 1 = first cut, ... 10 = tenth cut) with its
   * reference figures and the plots and soil preparations assigned to it.
   */
  datatype Category = Category(
    id: string,
    cycle: int,
    name: string,
    expectedProductivity: real,
    standardRevenue: real,
    standardCosts: real,
    plots: seq<Plot>,
    soilPreparations: seq<SoilPreparation>,
    parentCategoryId: Option<string>)

  /** A snapshot of a category's configuration. */
  datatype CategoryHistory = CategoryHistory(
    id: string,
    categoryId: string,
    configurationDate: string,
    plotIds: seq<string>,
    soilPreparationIds: seq<string>,
    changedBy: string,
    notes: Option<string>)

  /** A recommended dosage range; each part may be missing. */
  datatype Dosage = Dosage(min: Option<real>, max: Option<real>, unit: Option<string>)

  /** Everything a product record holds apart from its id and timestamps. */
  datatype ProductData = ProductData(
    name: string,
    brand: string,
    category: string,
    productType: string,
    registrationNumber: Option<string>,
    mapaClassification: Option<string>,
    activeIngredient: Option<string>,
    concentration: Option<string>,
    formulationType: Option<string>,
    activity: Option<string>,
    fertilizerType: Option<string>,
    species: Option<string>,
    guarantee: Option<string>,
    physicalNature: Option<string>,
    unitOfMeasure: string,
    costPerUnit: real,
    packageSize: Option<string>,
    supplier: Option<string>,
    manufacturer: Option<string>,
    applicationMethod: Option<seq<string>>,
    recommendedDosage: Option<Dosage>,
    targetCrops: Option<seq<string>>,
    targetPests: Option<seq<string>>,
    toxicClass: Option<string>,
    environmentalClass: Option<string>,
    withdrawalPeriod: Option<int>,
    reentryPeriod: Option<int>,
    description: Option<string>,
    technicalDataSheet: Option<string>,
    safetyDataSheet: Option<string>,
    notes: Option<string>,
    isActive: bool)

  /** A product (agricultural input) as the repository returns it. */
  datatype Product = Product(id: string, data: ProductData, createdAt: string, updatedAt: string)
}
