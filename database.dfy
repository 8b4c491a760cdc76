/**
 * The SQLite database the repositories work on, held in memory: one sequence
 * of rows per table, in insertion order. Each repository statement becomes
 * one step on these sequences. Columns keep the values the statements bind;
 * a JSON-encoded list column holds the list itself.
 */
module Tables {

  import opened Wrappers
  import opened Entities

  /** A row of `plots`. */
  datatype PlotRow = PlotRow(
    id: string,
    number: int,
    name: Option<string>,
    area: real,
    currentCycle: int,
    plantingDate: string,
    lastHarvestDate: Option<string>,
    status: PlotStatus,
    coordinates: Option<string>,
    soilType: Option<string>,
    notes: Option<string>,
    createdAt: string,
    updatedAt: string)

  /** A row of `productions`. */
  datatype ProductionRow = ProductionRow(
    id: string,
    plotId: string,
    cycle: int,
    harvestDate: string,
    tonnage: real,
    atr: real,
    revenue: real,
    costs: real,
    notes: Option<string>,
    createdAt: string)

  /** A row of `categories`. */
  datatype CategoryRow = CategoryRow(
    id: string,
    cycle: int,
    name: string,
    expectedProductivity: real,
    standardRevenue: real,
    standardCosts: real,
    parentCategoryId: Option<string>,
    updatedAt: string)

  /** A row of `plot_categories`: a link of a plot to a category, active or kept as history. */
  datatype PlotLinkRow = PlotLinkRow(id: string, plotId: string, categoryId: string, isActive: bool)

  /** A row of `category_soil_preparations`. */
  datatype CategoryPrepRow = CategoryPrepRow(id: string, categoryId: string, soilPreparationId: string)

  /** A row of `soil_preparations`. */
  datatype SoilPrepRow = SoilPrepRow(
    id: string,
    name: string,
    description: Option<string>,
    totalCost: real,
    estimatedDuration: int,
    createdAt: string,
    updatedAt: string)

  /** A row of `soil_preparation_actions`. */
  datatype ActionRow = ActionRow(
    id: string,
    soilPreparationId: string,
    productId: string,
    dosage: real,
    dosageUnit: string,
    applicationMethod: Option<string>,
    engineerReportBlob: Option<string>,
    order: int)

  /** A row of `category_history`; the two id lists are the decoded JSON arrays. */
  datatype HistoryRow = HistoryRow(
    id: string,
    categoryId: string,
    configurationDate: string,
    plotIds: seq<string>,
    soilPreparationIds: seq<string>,
    changedBy: string,
    notes: Option<string>)

  /** A row of `products`; `isActive` is the stored integer. */
  datatype ProductRow = ProductRow(
    id: string,
    name: string,
    brand: string,
    category: string,
    productType: string,
    registrationNumber: Option<string>,
    mapaClassification: Option<string>,
    activeIngredient: Option<string>,
    concentration: Option<string>,
    formulationType: Option<string>,
    activity: Option<string>,
    fertilizerType: Option<string>,
    species: Option<string>,
    guarantee: Option<string>,
    physicalNature: Option<string>,
    unitOfMeasure: string,
    costPerUnit: real,
    packageSize: Option<string>,
    supplier: Option<string>,
    manufacturer: Option<string>,
    applicationMethod: Option<seq<string>>,
    minDosage: Option<real>,
    maxDosage: Option<real>,
    dosageUnit: Option<string>,
    targetCrops: Option<seq<string>>,
    targetPests: Option<seq<string>>,
    toxicClass: Option<string>,
    environmentalClass: Option<string>,
    withdrawalPeriod: Option<int>,
    reentryPeriod: Option<int>,
    description: Option<string>,
    technicalDataSheet: Option<string>,
    safetyDataSheet: Option<string>,
    notes: Option<string>,
    isActive: int,
    createdAt: string,
    updatedAt: string)

  /** The application's database: every table the repositories touch. */
  class Database {
    var plots: seq<PlotRow>
    var productions: seq<ProductionRow>
    var categories: seq<CategoryRow>
    var plotCategories: seq<PlotLinkRow>
    var categorySoilPreparations: seq<CategoryPrepRow>
    var soilPreparations: seq<SoilPrepRow>
    var soilPreparationActions: seq<ActionRow>
    var categoryHistory: seq<HistoryRow>
    var products: seq<ProductRow>

    /** A freshly created database has empty tables. */
    constructor()
      ensures plots == [] && productions == [] && categories == []
      ensures plotCategories == [] && categorySoilPreparations == []
      ensures soilPreparations == [] && soilPreparationActions == []
      ensures categoryHistory == [] && products == []
    {
      plots := [];
      productions := [];
      categories := [];
      plotCategories := [];
      categorySoilPreparations := [];
      soilPreparations := [];
      soilPreparationActions := [];
      categoryHistory := [];
      products := [];
    }
  }
}
