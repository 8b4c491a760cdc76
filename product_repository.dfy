/**
 * The `products` table operations: creating a product, mapping a row back to
 * a product, listing by name (all, active only, by category, by type, by a
 * search term), the partial update builder and the soft delete.
 */
module ProductRepository {

  import opened Wrappers
  import opened Entities
  import opened Sql
  import opened Tables
  import Seqs
  import Sorting
  import Strings

  // ---------------------------------------------------------------- encodings

  /** JavaScript truthiness of a nullable number: NULL, `undefined` and 0 are falsy. */
  predicate TruthyReal(o: Option<real>)
  {
    o.Some? && o.value != 0.0
  }

  /** JavaScript truthiness of a nullable text: NULL, `undefined` and "" are falsy. */
  predicate TruthyText(o: Option<string>)
  {
    o.Some? && o.value != ""
  }

  /** `n || null` on a number: 0 is stored as NULL. */
  function NonZero(o: Option<real>): (r: Option<real>)
    ensures r.Some? <==> TruthyReal(o)
    ensures r.Some? ==> r == o
  {
    if TruthyReal(o) then o else None
  }

  /** `n || null` on an integer: 0 is stored as NULL. */
  function NonZeroInt(o: Option<int>): (r: Option<int>)
    ensures r.Some? <==> o.Some? && o.value != 0
    ensures r.Some? ==> r == o
  {
    if o.Some? && o.value != 0 then o else None
  }

  /** The encoding of an optional integer column: NULL when absent. */
  function IntOrNull(o: Option<int>): SqlValue
  {
    if o.Some? then SqlInt(o.value) else SqlNull
  }

  /** `isActive ? 1 : 0`. */
  function ActiveFlag(b: bool): (flag: int)
    ensures flag == 1 <==> b
    ensures flag == 0 <==> !b
  {
    if b then 1 else 0
  }

  // ---------------------------------------------------------------- mapRowToProduct

  /** Some part of a dosage is truthy, so that the three columns read back as a dosage. */
  predicate DosageShown(min: Option<real>, max: Option<real>, unit: Option<string>)
  {
    TruthyReal(min) || TruthyReal(max) || TruthyText(unit)
  }

  /**
   * `mapRowToProduct`: the row's columns under their field names. The list
   * columns are parsed back from JSON; `recommendedDosage` is present only
   * when one of its three columns is truthy; `isActive` is `is_active === 1`.
   */
  function MapRowToProduct(row: ProductRow): (p: Product)
    ensures p.id == row.id && p.createdAt == row.createdAt && p.updatedAt == row.updatedAt
    ensures p.data.isActive <==> row.isActive == 1
    ensures p.data.recommendedDosage.Some? <==> DosageShown(row.minDosage, row.maxDosage, row.dosageUnit)
    ensures p.data.recommendedDosage.Some? ==> p.data.recommendedDosage.value == Dosage(row.minDosage, row.maxDosage, row.dosageUnit)
  {
    Product(row.id,
      ProductData(row.name, row.brand, row.category, row.productType,
        row.registrationNumber, row.mapaClassification, row.activeIngredient, row.concentration, row.formulationType,
        row.activity, row.fertilizerType, row.species, row.guarantee, row.physicalNature,
        row.unitOfMeasure, row.costPerUnit, row.packageSize, row.supplier, row.manufacturer,
        row.applicationMethod,
        if DosageShown(row.minDosage, row.maxDosage, row.dosageUnit)
        then Some(Dosage(row.minDosage, row.maxDosage, row.dosageUnit)) else None,
        row.targetCrops, row.targetPests,
        row.toxicClass, row.environmentalClass, row.withdrawalPeriod, row.reentryPeriod,
        row.description, row.technicalDataSheet, row.safetyDataSheet, row.notes,
        row.isActive == 1),
      row.createdAt, row.updatedAt)
  }

  // ---------------------------------------------------------------- create

  /**
   * The row `create` inserts for `x` with id `id` at time `now`: optional
   * texts and numbers `|| null` (so "" and 0 become NULL), lists as JSON,
   * the dosage split over three columns, the active flag as 1 or 0.
   */
  function NewProductRow(x: ProductData, id: string, now: string): ProductRow
  {
    var d := x.recommendedDosage;
    ProductRow(id, x.name, x.brand, x.category, x.productType,
      NonEmpty(x.registrationNumber), NonEmpty(x.mapaClassification), NonEmpty(x.activeIngredient),
      NonEmpty(x.concentration), NonEmpty(x.formulationType),
      NonEmpty(x.activity), NonEmpty(x.fertilizerType), NonEmpty(x.species), NonEmpty(x.guarantee),
      NonEmpty(x.physicalNature),
      x.unitOfMeasure, x.costPerUnit,
      NonEmpty(x.packageSize), NonEmpty(x.supplier), NonEmpty(x.manufacturer),
      x.applicationMethod,
      DosageColumns(d).0, DosageColumns(d).1, DosageColumns(d).2,
      x.targetCrops, x.targetPests,
      NonEmpty(x.toxicClass), NonEmpty(x.environmentalClass),
      NonZeroInt(x.withdrawalPeriod), NonZeroInt(x.reentryPeriod),
      NonEmpty(x.description), NonEmpty(x.technicalDataSheet), NonEmpty(x.safetyDataSheet), NonEmpty(x.notes),
      ActiveFlag(x.isActive), now, now)
  }

  /** `create`: inserts the product under the fresh id `id` at time `now` and returns the id. */
  method Create(db: Database, x: ProductData, id: string, now: string) returns (newId: string)
    modifies db`products
    ensures newId == id
    ensures db.products == old(db.products) + [NewProductRow(x, id, now)]
  {
    db.products := db.products + [NewProductRow(x, id, now)];
    newId := id;
  }

  function ProductIdIs(id: string): ProductRow -> bool
  {
    (r: ProductRow) => r.id == id
  }

  /** `findById`: the first row with the id, mapped; None when no row has it. */
  function FindById(rows: seq<ProductRow>, id: string): (r: Option<Product>)
    ensures r.None? <==> forall i :: 0 <= i < |rows| ==> rows[i].id != id
    ensures r.Some? ==> exists k :: 0 <= k < |rows| && rows[k].id == id && r.value == MapRowToProduct(rows[k])
  {
    match Seqs.Find(rows, ProductIdIs(id))
    case None => None
    case Some(row) => Some(MapRowToProduct(row))
  }

  /**
   * Product data that `create` stores without loss: every optional text is
   * absent or non-empty, every optional period absent or non-zero, and a
   * dosage, when given, has only truthy parts and at least one of them.
   */
  predicate StoredAsGiven(x: ProductData)
  {
    && (x.registrationNumber.None? || TruthyText(x.registrationNumber))
    && (x.mapaClassification.None? || TruthyText(x.mapaClassification))
    && (x.activeIngredient.None? || TruthyText(x.activeIngredient))
    && (x.concentration.None? || TruthyText(x.concentration))
    && (x.formulationType.None? || TruthyText(x.formulationType))
    && (x.activity.None? || TruthyText(x.activity))
    && (x.fertilizerType.None? || TruthyText(x.fertilizerType))
    && (x.species.None? || TruthyText(x.species))
    && (x.guarantee.None? || TruthyText(x.guarantee))
    && (x.physicalNature.None? || TruthyText(x.physicalNature))
    && (x.packageSize.None? || TruthyText(x.packageSize))
    && (x.supplier.None? || TruthyText(x.supplier))
    && (x.manufacturer.None? || TruthyText(x.manufacturer))
    && DosageStoredAsGiven(x.recommendedDosage)
    && (x.toxicClass.None? || TruthyText(x.toxicClass))
    && (x.environmentalClass.None? || TruthyText(x.environmentalClass))
    && (x.withdrawalPeriod.None? || x.withdrawalPeriod.value != 0)
    && (x.reentryPeriod.None? || x.reentryPeriod.value != 0)
    && (x.description.None? || TruthyText(x.description))
    && (x.technicalDataSheet.None? || TruthyText(x.technicalDataSheet))
    && (x.safetyDataSheet.None? || TruthyText(x.safetyDataSheet))
    && (x.notes.None? || TruthyText(x.notes))
  }

  /** A dosage, when given, has only truthy parts and at least one of them. */
  predicate DosageStoredAsGiven(dosage: Option<Dosage>)
  {
    dosage.Some? ==>
      var d := dosage.value;
      && DosageShown(d.min, d.max, d.unit)
      && (d.min.None? || TruthyReal(d.min))
      && (d.max.None? || TruthyReal(d.max))
      && (d.unit.None? || TruthyText(d.unit))
  }

  /**
   * `create` then `findById`: the product is found with its name, brand,
   * category, type, unit, cost, lists and active flag as given. A dosage
   * none of whose parts is truthy (zero min and max, empty unit) reads back
   * as absent, and the whole record reads back unchanged exactly when it is
   * stored as given.
   */
  lemma CreatedProductFound(rows: seq<ProductRow>, x: ProductData, id: string, now: string)
    requires forall i :: 0 <= i < |rows| ==> rows[i].id != id
    ensures var r := FindById(rows + [NewProductRow(x, id, now)], id);
      && r.Some? && r.value.id == id && r.value.createdAt == now && r.value.updatedAt == now
      && r.value.data.name == x.name && r.value.data.brand == x.brand
      && r.value.data.category == x.category && r.value.data.productType == x.productType
      && r.value.data.unitOfMeasure == x.unitOfMeasure && r.value.data.costPerUnit == x.costPerUnit
      && r.value.data.applicationMethod == x.applicationMethod
      && r.value.data.targetCrops == x.targetCrops && r.value.data.targetPests == x.targetPests
      && r.value.data.isActive == x.isActive
      && (r.value.data.recommendedDosage.None?
          <==> x.recommendedDosage.None?
               || !DosageShown(x.recommendedDosage.value.min, x.recommendedDosage.value.max, x.recommendedDosage.value.unit))
      && (r.value.data == x <==> StoredAsGiven(x))
  {
    Seqs.FindIsFirst(rows + [NewProductRow(x, id, now)], ProductIdIs(id), |rows|);
    NewProductReadsBack(x, id, now);
  }

  /** What the row `create` inserts maps back to, field by field. */
  lemma NewProductReadsBack(x: ProductData, id: string, now: string)
    ensures var p := MapRowToProduct(NewProductRow(x, id, now));
      && p.id == id && p.createdAt == now && p.updatedAt == now
      && p.data.name == x.name && p.data.brand == x.brand
      && p.data.category == x.category && p.data.productType == x.productType
      && p.data.unitOfMeasure == x.unitOfMeasure && p.data.costPerUnit == x.costPerUnit
      && p.data.applicationMethod == x.applicationMethod
      && p.data.targetCrops == x.targetCrops && p.data.targetPests == x.targetPests
      && p.data.isActive == x.isActive
      && (p.data.recommendedDosage.None?
          <==> x.recommendedDosage.None?
               || !DosageShown(x.recommendedDosage.value.min, x.recommendedDosage.value.max, x.recommendedDosage.value.unit))
      && (p.data == x <==> StoredAsGiven(x))
  {
    if StoredAsGiven(x) {
      StoredAsGivenReadsBack(x, id, now);
    }
  }

  lemma StoredAsGivenReadsBack(x: ProductData, id: string, now: string)
    requires StoredAsGiven(x)
    ensures MapRowToProduct(NewProductRow(x, id, now)).data == x
  {
    StoredTextsReadBack(x, id, now);
    StoredNotesReadBack(x, id, now);
    StoredDosageReadsBack(x, id, now);
  }

  lemma StoredTextsReadBack(x: ProductData, id: string, now: string)
    requires StoredAsGiven(x)
    ensures var d := MapRowToProduct(NewProductRow(x, id, now)).data;
      d.registrationNumber == x.registrationNumber
      && d.mapaClassification == x.mapaClassification
      && d.activeIngredient == x.activeIngredient
      && d.concentration == x.concentration
      && d.formulationType == x.formulationType
      && d.activity == x.activity
      && d.fertilizerType == x.fertilizerType
      && d.species == x.species
      && d.guarantee == x.guarantee
      && d.physicalNature == x.physicalNature
  {
  }

  lemma StoredNotesReadBack(x: ProductData, id: string, now: string)
    requires StoredAsGiven(x)
    ensures var d := MapRowToProduct(NewProductRow(x, id, now)).data;
      d.packageSize == x.packageSize
      && d.supplier == x.supplier
      && d.manufacturer == x.manufacturer
      && d.toxicClass == x.toxicClass
      && d.environmentalClass == x.environmentalClass
      && d.description == x.description
      && d.technicalDataSheet == x.technicalDataSheet
      && d.safetyDataSheet == x.safetyDataSheet
      && d.notes == x.notes
  {
  }

  lemma StoredDosageReadsBack(x: ProductData, id: string, now: string)
    requires StoredAsGiven(x)
    ensures var d := MapRowToProduct(NewProductRow(x, id, now)).data;
      d.recommendedDosage == x.recommendedDosage && d.withdrawalPeriod == x.withdrawalPeriod && d.reentryPeriod == x.reentryPeriod
  {
    var row := NewProductRow(x, id, now);
    DosageReadsBack(x.recommendedDosage);
    assert (row.minDosage, row.maxDosage, row.dosageUnit) == DosageColumns(x.recommendedDosage);
  }

  /** The three dosage columns `create` writes for a dosage: each part `|| null`. */
  function DosageColumns(dosage: Option<Dosage>): (Option<real>, Option<real>, Option<string>)
  {
    if dosage.Some? then (NonZero(dosage.value.min), NonZero(dosage.value.max), NonEmpty(dosage.value.unit))
    else (None, None, None)
  }

  lemma DosageReadsBack(dosage: Option<Dosage>)
    requires DosageStoredAsGiven(dosage)
    ensures var (min, max, unit) := DosageColumns(dosage);
      (if DosageShown(min, max, unit) then Some(Dosage(min, max, unit)) else None) == dosage
  {
  }

  // ---------------------------------------------------------------- listings

  function NameOf(r: ProductRow): string { r.name }

  /** `ORDER BY name`; rows with equal names keep their table order. */
  function SortedByName(rows: seq<ProductRow>): (r: seq<ProductRow>)
    ensures |r| == |rows|
    ensures forall i, j :: 0 <= i < j < |r| ==> Strings.StrLe(r[i].name, r[j].name)
    ensures forall i :: 0 <= i < |rows| ==> rows[i] in r
    ensures forall i :: 0 <= i < |r| ==> r[i] in rows
    ensures multiset(r) == multiset(rows)
    ensures forall n :: Seqs.Filter(r, Sorting.TextIs(NameOf, n)) == Seqs.Filter(rows, Sorting.TextIs(NameOf, n))
  {
    Sorting.SortedByText(rows, NameOf)
  }

  /** `result.rows.raw().map(mapRowToProduct)`. */
  function ToProducts(rows: seq<ProductRow>): (r: seq<Product>)
    ensures |r| == |rows|
    ensures forall i :: 0 <= i < |rows| ==> r[i] == MapRowToProduct(rows[i])
  {
    if |rows| == 0 then [] else ToProducts(rows[..|rows| - 1]) + [MapRowToProduct(rows[|rows| - 1])]
  }

  /** `p` is the mapping of one of the rows `keep` selects. */
  predicate FromKeptRow(p: Product, rows: seq<ProductRow>, keep: ProductRow -> bool)
  {
    exists j :: 0 <= j < |rows| && keep(rows[j]) && p == MapRowToProduct(rows[j])
  }

  /** `SELECT * FROM products WHERE … ORDER BY name`, mapped: the rows `keep` selects, by name. */
  function Listing(rows: seq<ProductRow>, keep: ProductRow -> bool): (r: seq<Product>)
    ensures |r| == |Seqs.Filter(rows, keep)|
    ensures forall i, j :: 0 <= i < j < |r| ==> Strings.StrLe(r[i].data.name, r[j].data.name)
    ensures forall i :: 0 <= i < |r| ==> FromKeptRow(r[i], rows, keep)
    ensures forall i :: 0 <= i < |rows| && keep(rows[i]) ==> MapRowToProduct(rows[i]) in r
  {
    var sorted := SortedByName(Seqs.Filter(rows, keep));
    ListingOrdered(sorted);
    ListingKept(rows, keep, sorted);
    ListingCovers(rows, keep, sorted);
    ToProducts(sorted)
  }

  lemma ListingOrdered(sorted: seq<ProductRow>)
    requires forall i, j :: 0 <= i < j < |sorted| ==> Strings.StrLe(sorted[i].name, sorted[j].name)
    ensures var r := ToProducts(sorted); forall i, j :: 0 <= i < j < |r| ==> Strings.StrLe(r[i].data.name, r[j].data.name)
  {
    var r := ToProducts(sorted);
    forall i, j | 0 <= i < j < |r| ensures Strings.StrLe(r[i].data.name, r[j].data.name) {
      assert r[i].data.name == sorted[i].name && r[j].data.name == sorted[j].name;
    }
  }

  lemma KeptRowIn(rows: seq<ProductRow>, keep: ProductRow -> bool, x: ProductRow)
    requires x in Seqs.Filter(rows, keep)
    ensures x in rows && keep(x)
  {
  }

  lemma ListingKept(rows: seq<ProductRow>, keep: ProductRow -> bool, sorted: seq<ProductRow>)
    requires forall i :: 0 <= i < |sorted| ==> sorted[i] in Seqs.Filter(rows, keep)
    ensures var r := ToProducts(sorted); forall i :: 0 <= i < |r| ==> FromKeptRow(r[i], rows, keep)
  {
    var r := ToProducts(sorted);
    forall i | 0 <= i < |r| ensures FromKeptRow(r[i], rows, keep) {
      KeptRowIn(rows, keep, sorted[i]);
      var j :| 0 <= j < |rows| && rows[j] == sorted[i];
      assert keep(rows[j]) && r[i] == MapRowToProduct(rows[j]);
    }
  }

  lemma ListingCovers(rows: seq<ProductRow>, keep: ProductRow -> bool, sorted: seq<ProductRow>)
    requires forall x :: x in Seqs.Filter(rows, keep) ==> x in sorted
    ensures var r := ToProducts(sorted); forall i :: 0 <= i < |rows| && keep(rows[i]) ==> MapRowToProduct(rows[i]) in r
  {
    var r := ToProducts(sorted);
    forall i | 0 <= i < |rows| && keep(rows[i]) ensures MapRowToProduct(rows[i]) in r {
      assert rows[i] in Seqs.Filter(rows, keep);
      var k :| 0 <= k < |sorted| && sorted[k] == rows[i];
      assert r[k] == MapRowToProduct(rows[i]);
    }
  }

  function IsActiveRow(r: ProductRow): bool { r.isActive == 1 }

  function AnyRow(r: ProductRow): bool { true }

  /** `findAll(activeOnly)`: the active rows (or every row), by name. */
  function FindAll(rows: seq<ProductRow>, activeOnly: bool): (r: seq<Product>)
    ensures forall i, j :: 0 <= i < j < |r| ==> Strings.StrLe(r[i].data.name, r[j].data.name)
    ensures activeOnly ==> forall i :: 0 <= i < |r| ==> r[i].data.isActive
    ensures forall i :: 0 <= i < |r| ==> exists j :: 0 <= j < |rows| && r[i] == MapRowToProduct(rows[j])
    ensures forall i :: 0 <= i < |rows| && (!activeOnly || rows[i].isActive == 1) ==> MapRowToProduct(rows[i]) in r
    ensures !activeOnly ==> |r| == |rows|
  {
    if activeOnly then ActiveListing(rows); Listing(rows, IsActiveRow)
    else FullListing(rows); Listing(rows, AnyRow)
  }

  lemma ActiveListing(rows: seq<ProductRow>)
    ensures var r := Listing(rows, IsActiveRow);
      && (forall i :: 0 <= i < |r| ==> r[i].data.isActive)
      && (forall i :: 0 <= i < |r| ==> exists j :: 0 <= j < |rows| && r[i] == MapRowToProduct(rows[j]))
  {
    var r := Listing(rows, IsActiveRow);
    forall i | 0 <= i < |r|
      ensures r[i].data.isActive
      ensures exists j :: 0 <= j < |rows| && r[i] == MapRowToProduct(rows[j])
    {
      assert FromKeptRow(r[i], rows, IsActiveRow);
    }
  }

  lemma FullListing(rows: seq<ProductRow>)
    ensures var r := Listing(rows, AnyRow);
      && |r| == |rows|
      && (forall i :: 0 <= i < |r| ==> exists j :: 0 <= j < |rows| && r[i] == MapRowToProduct(rows[j]))
  {
    Seqs.FilterAll(rows, AnyRow);
    var r := Listing(rows, AnyRow);
    forall i | 0 <= i < |r| ensures exists j :: 0 <= j < |rows| && r[i] == MapRowToProduct(rows[j]) {
      assert FromKeptRow(r[i], rows, AnyRow);
    }
  }

  /** `category = ? AND is_active = 1`. */
  function ActiveInCategory(category: string): ProductRow -> bool
  {
    (r: ProductRow) => r.category == category && r.isActive == 1
  }

  /** `findByCategory`: the active products of that category, by name. */
  function FindByCategory(rows: seq<ProductRow>, category: string): (r: seq<Product>)
    ensures forall i, j :: 0 <= i < j < |r| ==> Strings.StrLe(r[i].data.name, r[j].data.name)
    ensures forall i :: 0 <= i < |r| ==> r[i].data.category == category && r[i].data.isActive
    ensures forall i :: 0 <= i < |r| ==> FromKeptRow(r[i], rows, ActiveInCategory(category))
    ensures forall i :: 0 <= i < |rows| && rows[i].category == category && rows[i].isActive == 1 ==> MapRowToProduct(rows[i]) in r
  {
    Listing(rows, ActiveInCategory(category))
  }

  /** `type = ? AND is_active = 1`. */
  function ActiveOfType(productType: string): ProductRow -> bool
  {
    (r: ProductRow) => r.productType == productType && r.isActive == 1
  }

  /** `findByType`: the active products of that type, by name. */
  function FindByType(rows: seq<ProductRow>, productType: string): (r: seq<Product>)
    ensures forall i, j :: 0 <= i < j < |r| ==> Strings.StrLe(r[i].data.name, r[j].data.name)
    ensures forall i :: 0 <= i < |r| ==> r[i].data.productType == productType && r[i].data.isActive
    ensures forall i :: 0 <= i < |r| ==> FromKeptRow(r[i], rows, ActiveOfType(productType))
    ensures forall i :: 0 <= i < |rows| && rows[i].productType == productType && rows[i].isActive == 1 ==> MapRowToProduct(rows[i]) in r
  {
    Listing(rows, ActiveOfType(productType))
  }

  /** `column LIKE '%term%'`, the term bound unescaped; a NULL column matches nothing. */
  predicate LikeTerm(column: Option<string>, term: string)
  {
    column.Some? && Strings.LikeAnywhere(column.value, term)
  }

  /** The search condition: the name, brand, active ingredient, species or registration number of an active row is `LIKE '%term%'`. */
  function ActiveMatching(term: string): ProductRow -> bool
  {
    (r: ProductRow) =>
      && (Strings.LikeAnywhere(r.name, term) || Strings.LikeAnywhere(r.brand, term)
          || LikeTerm(r.activeIngredient, term) || LikeTerm(r.species, term) || LikeTerm(r.registrationNumber, term))
      && r.isActive == 1
  }

  /** Products read from rows that are all active are all active. */
  lemma KeptAreActive(rows: seq<ProductRow>, keep: ProductRow -> bool, ps: seq<Product>)
    requires forall i :: 0 <= i < |rows| && keep(rows[i]) ==> rows[i].isActive == 1
    requires forall k :: 0 <= k < |ps| ==> FromKeptRow(ps[k], rows, keep)
    ensures forall k :: 0 <= k < |ps| ==> ps[k].data.isActive
  {
    forall k | 0 <= k < |ps| ensures ps[k].data.isActive {
      assert FromKeptRow(ps[k], rows, keep);
      var j :| 0 <= j < |rows| && keep(rows[j]) && ps[k] == MapRowToProduct(rows[j]);
    }
  }

  /** `search`: the active products whose searched columns contain the term, by name. */
  function Search(rows: seq<ProductRow>, term: string): (r: seq<Product>)
    ensures forall i, j :: 0 <= i < j < |r| ==> Strings.StrLe(r[i].data.name, r[j].data.name)
    ensures forall i :: 0 <= i < |r| ==> r[i].data.isActive
    ensures forall i :: 0 <= i < |r| ==> FromKeptRow(r[i], rows, ActiveMatching(term))
    ensures forall i :: 0 <= i < |rows| && ActiveMatching(term)(rows[i]) ==> MapRowToProduct(rows[i]) in r
  {
    KeptAreActive(rows, ActiveMatching(term), Listing(rows, ActiveMatching(term)));
    Listing(rows, ActiveMatching(term))
  }

  /** An active product whose name contains a wildcard-free term as written is found by `search`. */
  lemma SearchFindsNameContaining(rows: seq<ProductRow>, term: string, i: int)
    requires Strings.NoWildcards(term)
    requires 0 <= i < |rows| && rows[i].isActive == 1 && Strings.ContainsSubstring(rows[i].name, term)
    ensures MapRowToProduct(rows[i]) in Search(rows, term)
  {
    Strings.SubstringIsLike(rows[i].name, term);
  }

  // ---------------------------------------------------------------- delete

  /** `UPDATE products SET is_active = 0 WHERE id = ?`, row by row. */
  function Deactivate(id: string): ProductRow -> ProductRow
  {
    (r: ProductRow) => if r.id == id then r.(isActive := 0) else r
  }

  /** `delete`: a soft delete; the row stays, marked inactive, and nothing else changes. */
  method Delete(db: Database, id: string)
    modifies db`products
    ensures db.products == Seqs.Map(old(db.products), Deactivate(id))
  {
    db.products := Seqs.Map(db.products, Deactivate(id));
  }

  /** No product of `ps` has the id. */
  predicate Absent(ps: seq<Product>, id: string)
  {
    forall k :: 0 <= k < |ps| ==> ps[k].id != id
  }

  /** A listing that keeps only active rows never shows a soft-deleted product. */
  lemma ActiveListingHides(rows: seq<ProductRow>, keep: ProductRow -> bool, id: string, ps: seq<Product>)
    requires forall i :: 0 <= i < |rows| && rows[i].id == id ==> rows[i].isActive == 0
    requires forall i :: 0 <= i < |rows| && keep(rows[i]) ==> rows[i].isActive == 1
    requires forall k :: 0 <= k < |ps| ==> FromKeptRow(ps[k], rows, keep)
    ensures Absent(ps, id)
  {
    forall k | 0 <= k < |ps| ensures ps[k].id != id {
      assert FromKeptRow(ps[k], rows, keep);
      var j :| 0 <= j < |rows| && keep(rows[j]) && ps[k] == MapRowToProduct(rows[j]);
    }
  }

  /** `delete(id)` keeps every row, in place; only the rows with that id change, and only their flag. */
  lemma SoftDeleteKeepsRows(rows: seq<ProductRow>, id: string)
    ensures var after := Seqs.Map(rows, Deactivate(id));
      && |after| == |rows|
      && (forall i :: 0 <= i < |rows| && rows[i].id == id ==> after[i] == rows[i].(isActive := 0))
      && (forall i :: 0 <= i < |rows| && rows[i].id != id ==> after[i] == rows[i])
  {
  }

  /** After `delete(id)`, `findAll()`, `findByCategory`, `findByType` and `search` no longer list the product. */
  lemma DeletedProductHidden(rows: seq<ProductRow>, id: string, category: string, productType: string, term: string)
    ensures var after := Seqs.Map(rows, Deactivate(id));
      && Absent(FindAll(after, true), id)
      && Absent(FindByCategory(after, category), id)
      && Absent(FindByType(after, productType), id)
      && Absent(Search(after, term), id)
  {
    var after := Seqs.Map(rows, Deactivate(id));
    SoftDeletedInactive(rows, id);
    ActiveFindAllKept(after);
    ActiveListingHides(after, IsActiveRow, id, FindAll(after, true));
    DeletedHiddenByFilters(after, id, category, productType, term);
  }

  lemma SoftDeletedInactive(rows: seq<ProductRow>, id: string)
    ensures var after := Seqs.Map(rows, Deactivate(id));
      forall i :: 0 <= i < |after| && after[i].id == id ==> after[i].isActive == 0
  {
  }

  lemma DeletedHiddenByFilters(after: seq<ProductRow>, id: string, category: string, productType: string, term: string)
    requires forall i :: 0 <= i < |after| && after[i].id == id ==> after[i].isActive == 0
    ensures Absent(FindByCategory(after, category), id)
    ensures Absent(FindByType(after, productType), id)
    ensures Absent(Search(after, term), id)
  {
    ActiveListingHides(after, ActiveInCategory(category), id, FindByCategory(after, category));
    ActiveListingHides(after, ActiveOfType(productType), id, FindByType(after, productType));
    ActiveListingHides(after, ActiveMatching(term), id, Search(after, term));
  }

  lemma ActiveFindAllKept(rows: seq<ProductRow>)
    ensures var all := FindAll(rows, true); forall k :: 0 <= k < |all| ==> FromKeptRow(all[k], rows, IsActiveRow)
  {
    var all := FindAll(rows, true);
    forall k | 0 <= k < |all| ensures FromKeptRow(all[k], rows, IsActiveRow) {
      var j :| 0 <= j < |rows| && all[k] == MapRowToProduct(rows[j]);
      assert all[k].data.isActive;
    }
  }

  /** After `delete(id)` the product is still found by `findById` and listed by `findAll(false)`, inactive. */
  lemma DeletedProductStillStored(rows: seq<ProductRow>, id: string)
    ensures var after := Seqs.Map(rows, Deactivate(id));
      && (FindById(after, id).Some? <==> FindById(rows, id).Some?)
      && (FindById(after, id).Some? ==> !FindById(after, id).value.data.isActive)
      && (forall i :: 0 <= i < |rows| && rows[i].id == id ==>
            MapRowToProduct(after[i]) in FindAll(after, false) && !MapRowToProduct(after[i]).data.isActive)
  {
    var after := Seqs.Map(rows, Deactivate(id));
    assert forall i :: 0 <= i < |rows| ==> after[i].id == rows[i].id;
  }

  // ---------------------------------------------------------------- update

  /** The fields a `Partial<Product>` update may carry; None is `undefined`. */
  datatype ProductPatch = ProductPatch(
    name: Option<string>,
    brand: Option<string>,
    category: Option<string>,
    productType: Option<string>,
    registrationNumber: Option<string>,
    mapaClassification: Option<string>,
    activeIngredient: Option<string>,
    concentration: Option<string>,
    formulationType: Option<string>,
    activity: Option<string>,
    fertilizerType: Option<string>,
    species: Option<string>,
    guarantee: Option<string>,
    physicalNature: Option<string>,
    unitOfMeasure: Option<string>,
    costPerUnit: Option<real>,
    packageSize: Option<string>,
    supplier: Option<string>,
    manufacturer: Option<string>,
    applicationMethod: Option<seq<string>>,
    recommendedDosage: Option<Dosage>,
    targetCrops: Option<seq<string>>,
    targetPests: Option<seq<string>>,
    toxicClass: Option<string>,
    environmentalClass: Option<string>,
    withdrawalPeriod: Option<int>,
    reentryPeriod: Option<int>,
    description: Option<string>,
    technicalDataSheet: Option<string>,
    safetyDataSheet: Option<string>,
    notes: Option<string>,
    isActive: Option<bool>)

  /** The columns `update` may set from supplied fields, in the order it tests them. */
  const PRODUCT_UPDATE_COLUMNS: seq<string> := IDENTITY_COLUMNS + DETAIL_COLUMNS

  /** The identification, regulatory and agronomic columns. */
  const IDENTITY_COLUMNS: seq<string> :=
    ["name", "brand", "category", "type",
     "registration_number", "mapa_classification", "active_ingredient", "concentration",
     "formulation_type", "activity", "fertilizer_type", "species",
     "guarantee", "physical_nature"]

  /** The commercial and application columns, then the safety and documentation ones. */
  const DETAIL_COLUMNS: seq<string> := USAGE_COLUMNS + SAFETY_COLUMNS

  const USAGE_COLUMNS: seq<string> :=
    ["unit_of_measure", "cost_per_unit", "package_size", "supplier",
     "manufacturer", "application_method", "min_dosage", "max_dosage",
     "dosage_unit", "target_crops"]

  const SAFETY_COLUMNS: seq<string> :=
    ["target_pests", "toxic_class", "environmental_class", "withdrawal_period",
     "reentry_period", "description", "technical_data_sheet", "safety_data_sheet",
     "notes", "is_active"]

  /** `update` checks no column twice. */
  lemma ProductColumnsDistinct()
    ensures Seqs.NoDuplicates(PRODUCT_UPDATE_COLUMNS)
  {
    IdentityColumnsDistinct();
    UsageColumnsDistinct();
    SafetyColumnsDistinct();
    ColumnGroupsDisjoint();
    Seqs.NoDuplicatesAppend(USAGE_COLUMNS, SAFETY_COLUMNS);
    Seqs.NoDuplicatesAppend(IDENTITY_COLUMNS, DETAIL_COLUMNS);
  }

  lemma IdentityColumnsDistinct()
    ensures Seqs.NoDuplicates(IDENTITY_COLUMNS)
  {
  }

  lemma UsageColumnsDistinct()
    ensures Seqs.NoDuplicates(USAGE_COLUMNS)
  {
  }

  lemma SafetyColumnsDistinct()
    ensures Seqs.NoDuplicates(SAFETY_COLUMNS)
  {
  }

  lemma ColumnGroupsDisjoint()
    ensures Seqs.Disjoint(USAGE_COLUMNS, SAFETY_COLUMNS)
    ensures Seqs.Disjoint(IDENTITY_COLUMNS, DETAIL_COLUMNS)
  {
  }

  lemma ProductColumnsExcludeTimestamp()
    ensures "updated_at" !in PRODUCT_UPDATE_COLUMNS
  {
  }

  /**
   * The values `update` may bind, one per column of `PRODUCT_UPDATE_COLUMNS`;
   * None where the field is `undefined`. A supplied dosage binds all three
   * dosage columns, each `|| null`; lists are bound as their JSON text; the
   * active flag as 1 or 0.
   */
  function ProductValues(p: ProductPatch): (vs: seq<Option<SqlValue>>)
    ensures |vs| == |PRODUCT_UPDATE_COLUMNS|
    ensures forall k :: 0 <= k < |vs| ==> vs[k] == ProductValueAt(p, k)
  {
    seq(|PRODUCT_UPDATE_COLUMNS|, k => ProductValueAt(p, k))
  }

  /** The value `update` binds for the k-th column of `PRODUCT_UPDATE_COLUMNS`. */
  function ProductValueAt(p: ProductPatch, k: int): Option<SqlValue>
  {
    if k == 0 then (if p.name.Some? then Some(SqlText(p.name.value)) else None)  // name
    else if k == 1 then (if p.brand.Some? then Some(SqlText(p.brand.value)) else None)  // brand
    else if k == 2 then (if p.category.Some? then Some(SqlText(p.category.value)) else None)  // category
    else if k == 3 then (if p.productType.Some? then Some(SqlText(p.productType.value)) else None)  // type
    else if k == 4 then (if p.registrationNumber.Some? then Some(SqlText(p.registrationNumber.value)) else None)  // registration_number
    else if k == 5 then (if p.mapaClassification.Some? then Some(SqlText(p.mapaClassification.value)) else None)  // mapa_classification
    else if k == 6 then (if p.activeIngredient.Some? then Some(SqlText(p.activeIngredient.value)) else None)  // active_ingredient
    else if k == 7 then (if p.concentration.Some? then Some(SqlText(p.concentration.value)) else None)  // concentration
    else if k == 8 then (if p.formulationType.Some? then Some(SqlText(p.formulationType.value)) else None)  // formulation_type
    else if k == 9 then (if p.activity.Some? then Some(SqlText(p.activity.value)) else None)  // activity
    else if k == 10 then (if p.fertilizerType.Some? then Some(SqlText(p.fertilizerType.value)) else None)  // fertilizer_type
    else if k == 11 then (if p.species.Some? then Some(SqlText(p.species.value)) else None)  // species
    else if k == 12 then (if p.guarantee.Some? then Some(SqlText(p.guarantee.value)) else None)  // guarantee
    else if k == 13 then (if p.physicalNature.Some? then Some(SqlText(p.physicalNature.value)) else None)  // physical_nature
    else if k == 14 then (if p.unitOfMeasure.Some? then Some(SqlText(p.unitOfMeasure.value)) else None)  // unit_of_measure
    else if k == 15 then (if p.costPerUnit.Some? then Some(SqlReal(p.costPerUnit.value)) else None)  // cost_per_unit
    else if k == 16 then (if p.packageSize.Some? then Some(SqlText(p.packageSize.value)) else None)  // package_size
    else if k == 17 then (if p.supplier.Some? then Some(SqlText(p.supplier.value)) else None)  // supplier
    else if k == 18 then (if p.manufacturer.Some? then Some(SqlText(p.manufacturer.value)) else None)  // manufacturer
    else if k == 19 then (if p.applicationMethod.Some? then Some(SqlJson(p.applicationMethod.value)) else None)  // application_method
    else if k == 20 then (if p.recommendedDosage.Some? then Some(RealOrNull(NonZero(p.recommendedDosage.value.min))) else None)  // min_dosage
    else if k == 21 then (if p.recommendedDosage.Some? then Some(RealOrNull(NonZero(p.recommendedDosage.value.max))) else None)  // max_dosage
    else if k == 22 then (if p.recommendedDosage.Some? then Some(TextOrNull(NonEmpty(p.recommendedDosage.value.unit))) else None)  // dosage_unit
    else if k == 23 then (if p.targetCrops.Some? then Some(SqlJson(p.targetCrops.value)) else None)  // target_crops
    else if k == 24 then (if p.targetPests.Some? then Some(SqlJson(p.targetPests.value)) else None)  // target_pests
    else if k == 25 then (if p.toxicClass.Some? then Some(SqlText(p.toxicClass.value)) else None)  // toxic_class
    else if k == 26 then (if p.environmentalClass.Some? then Some(SqlText(p.environmentalClass.value)) else None)  // environmental_class
    else if k == 27 then (if p.withdrawalPeriod.Some? then Some(SqlInt(p.withdrawalPeriod.value)) else None)  // withdrawal_period
    else if k == 28 then (if p.reentryPeriod.Some? then Some(SqlInt(p.reentryPeriod.value)) else None)  // reentry_period
    else if k == 29 then (if p.description.Some? then Some(SqlText(p.description.value)) else None)  // description
    else if k == 30 then (if p.technicalDataSheet.Some? then Some(SqlText(p.technicalDataSheet.value)) else None)  // technical_data_sheet
    else if k == 31 then (if p.safetyDataSheet.Some? then Some(SqlText(p.safetyDataSheet.value)) else None)  // safety_data_sheet
    else if k == 32 then (if p.notes.Some? then Some(SqlText(p.notes.value)) else None)  // notes
    else if k == 33 then (if p.isActive.Some? then Some(SqlInt(ActiveFlag(p.isActive.value))) else None)  // is_active
    else None
  }

  /** The columns `update` may push, with the values it binds. */
  function ProductFields(p: ProductPatch): seq<Field>
  {
    FieldsOf(PRODUCT_UPDATE_COLUMNS, ProductValues(p))
  }

  /** The SET list of `update`: the supplied fields, then `updated_at = ?` bound to the clock. */
  function ProductAssignments(p: ProductPatch, now: string): seq<Assignment>
  {
    Supplied(ProductFields(p)) + [Bind("updated_at", SqlText(now))]
  }

  /** What a row holds, as SQLite sees it, in each column of `PRODUCT_UPDATE_COLUMNS`. */
  function ProductUpdatable(r: ProductRow): (vs: seq<SqlValue>)
    ensures |vs| == |PRODUCT_UPDATE_COLUMNS|
    ensures forall k :: 0 <= k < |vs| ==> vs[k] == ProductColumnAt(r, k)
  {
    seq(|PRODUCT_UPDATE_COLUMNS|, k => ProductColumnAt(r, k))
  }

  /** What a row holds, as SQLite sees it, in the k-th column of `PRODUCT_UPDATE_COLUMNS`. */
  function ProductColumnAt(r: ProductRow, k: int): SqlValue
  {
    if k == 0 then SqlText(r.name)  // name
    else if k == 1 then SqlText(r.brand)  // brand
    else if k == 2 then SqlText(r.category)  // category
    else if k == 3 then SqlText(r.productType)  // type
    else if k == 4 then TextOrNull(r.registrationNumber)  // registration_number
    else if k == 5 then TextOrNull(r.mapaClassification)  // mapa_classification
    else if k == 6 then TextOrNull(r.activeIngredient)  // active_ingredient
    else if k == 7 then TextOrNull(r.concentration)  // concentration
    else if k == 8 then TextOrNull(r.formulationType)  // formulation_type
    else if k == 9 then TextOrNull(r.activity)  // activity
    else if k == 10 then TextOrNull(r.fertilizerType)  // fertilizer_type
    else if k == 11 then TextOrNull(r.species)  // species
    else if k == 12 then TextOrNull(r.guarantee)  // guarantee
    else if k == 13 then TextOrNull(r.physicalNature)  // physical_nature
    else if k == 14 then SqlText(r.unitOfMeasure)  // unit_of_measure
    else if k == 15 then SqlReal(r.costPerUnit)  // cost_per_unit
    else if k == 16 then TextOrNull(r.packageSize)  // package_size
    else if k == 17 then TextOrNull(r.supplier)  // supplier
    else if k == 18 then TextOrNull(r.manufacturer)  // manufacturer
    else if k == 19 then JsonOrNull(r.applicationMethod)  // application_method
    else if k == 20 then RealOrNull(r.minDosage)  // min_dosage
    else if k == 21 then RealOrNull(r.maxDosage)  // max_dosage
    else if k == 22 then TextOrNull(r.dosageUnit)  // dosage_unit
    else if k == 23 then JsonOrNull(r.targetCrops)  // target_crops
    else if k == 24 then JsonOrNull(r.targetPests)  // target_pests
    else if k == 25 then TextOrNull(r.toxicClass)  // toxic_class
    else if k == 26 then TextOrNull(r.environmentalClass)  // environmental_class
    else if k == 27 then IntOrNull(r.withdrawalPeriod)  // withdrawal_period
    else if k == 28 then IntOrNull(r.reentryPeriod)  // reentry_period
    else if k == 29 then TextOrNull(r.description)  // description
    else if k == 30 then TextOrNull(r.technicalDataSheet)  // technical_data_sheet
    else if k == 31 then TextOrNull(r.safetyDataSheet)  // safety_data_sheet
    else if k == 32 then TextOrNull(r.notes)  // notes
    else if k == 33 then SqlInt(r.isActive)  // is_active
    else SqlNull
  }

  /** A row after `update` at time `now`: each supplied field replaced, `updated_at` set to the clock. */
  function ApplyProductPatch(r: ProductRow, p: ProductPatch, now: string): ProductRow
  {
    r.(name := p.name.GetOr(r.name),
       brand := p.brand.GetOr(r.brand),
       category := p.category.GetOr(r.category),
       productType := p.productType.GetOr(r.productType),
       registrationNumber := if p.registrationNumber.Some? then p.registrationNumber else r.registrationNumber,
       mapaClassification := if p.mapaClassification.Some? then p.mapaClassification else r.mapaClassification,
       activeIngredient := if p.activeIngredient.Some? then p.activeIngredient else r.activeIngredient,
       concentration := if p.concentration.Some? then p.concentration else r.concentration,
       formulationType := if p.formulationType.Some? then p.formulationType else r.formulationType,
       activity := if p.activity.Some? then p.activity else r.activity,
       fertilizerType := if p.fertilizerType.Some? then p.fertilizerType else r.fertilizerType,
       species := if p.species.Some? then p.species else r.species,
       guarantee := if p.guarantee.Some? then p.guarantee else r.guarantee,
       physicalNature := if p.physicalNature.Some? then p.physicalNature else r.physicalNature,
       unitOfMeasure := p.unitOfMeasure.GetOr(r.unitOfMeasure),
       costPerUnit := p.costPerUnit.GetOr(r.costPerUnit),
       packageSize := if p.packageSize.Some? then p.packageSize else r.packageSize,
       supplier := if p.supplier.Some? then p.supplier else r.supplier,
       manufacturer := if p.manufacturer.Some? then p.manufacturer else r.manufacturer,
       applicationMethod := if p.applicationMethod.Some? then p.applicationMethod else r.applicationMethod,
       minDosage := if p.recommendedDosage.Some? then NonZero(p.recommendedDosage.value.min) else r.minDosage,
       maxDosage := if p.recommendedDosage.Some? then NonZero(p.recommendedDosage.value.max) else r.maxDosage,
       dosageUnit := if p.recommendedDosage.Some? then NonEmpty(p.recommendedDosage.value.unit) else r.dosageUnit,
       targetCrops := if p.targetCrops.Some? then p.targetCrops else r.targetCrops,
       targetPests := if p.targetPests.Some? then p.targetPests else r.targetPests,
       toxicClass := if p.toxicClass.Some? then p.toxicClass else r.toxicClass,
       environmentalClass := if p.environmentalClass.Some? then p.environmentalClass else r.environmentalClass,
       withdrawalPeriod := if p.withdrawalPeriod.Some? then p.withdrawalPeriod else r.withdrawalPeriod,
       reentryPeriod := if p.reentryPeriod.Some? then p.reentryPeriod else r.reentryPeriod,
       description := if p.description.Some? then p.description else r.description,
       technicalDataSheet := if p.technicalDataSheet.Some? then p.technicalDataSheet else r.technicalDataSheet,
       safetyDataSheet := if p.safetyDataSheet.Some? then p.safetyDataSheet else r.safetyDataSheet,
       notes := if p.notes.Some? then p.notes else r.notes,
       isActive := if p.isActive.Some? then ActiveFlag(p.isActive.value) else r.isActive,
       updatedAt := now)
  }

  /** The table after `UPDATE products SET … WHERE id = ?` at time `now`. */
  function UpdateProductRows(rows: seq<ProductRow>, id: string, p: ProductPatch, now: string): seq<ProductRow>
  {
    Seqs.Map(rows, (r: ProductRow) => if r.id == id then ApplyProductPatch(r, p, now) else r)
  }

  /**
   * `update`: nothing at all when no field is supplied (not even the update
   * time); otherwise one UPDATE of the supplied columns and `updated_at`.
   */
  method Update(db: Database, id: string, p: ProductPatch, now: string) returns (st: Option<UpdateStatement>)
    modifies db`products
    ensures st.None? <==> NoneSupplied(ProductFields(p))
    ensures st.Some? ==> st.value == UpdateStatement("products", ProductAssignments(p, now), id)
    ensures st.None? ==> db.products == old(db.products)
    ensures st.Some? ==> db.products == UpdateProductRows(old(db.products), id, p, now)
  {
    var assignments := BuildAssignments(ProductFields(p));
    if |assignments| == 0 {
      st := None;
    } else {
      st := Some(UpdateStatement("products", assignments + [Bind("updated_at", SqlText(now))], id));
      db.products := UpdateProductRows(db.products, id, p, now);
    }
  }

  /**
   * The statement of `update` binds one value per supplied field, then the
   * clock for `updated_at`, then the id: one value per placeholder.
   */
  lemma ProductStatementShape(id: string, p: ProductPatch, now: string)
    ensures var st := UpdateStatement("products", ProductAssignments(p, now), id);
      && |BoundValues(st)| == SuppliedCount(ProductFields(p)) + 2
      && Placeholders(Render(st)) == |BoundValues(st)|
      && st.assignments[|st.assignments| - 1] == Bind("updated_at", SqlText(now))
  {
    var tail := [Bind("updated_at", SqlText(now))];
    assert AssignmentValues(tail) == [SqlText(now)];
    BoundValuesCount("products", ProductFields(p), tail, id);
  }

  /**
   * The statement and the row update agree column by column: the k-th
   * updatable column is assigned the k-th value exactly when it is supplied,
   * and the row then holds that value there, or keeps its old one.
   */
  lemma ProductUpdateAgrees(r: ProductRow, p: ProductPatch, now: string, k: nat)
    requires k < |PRODUCT_UPDATE_COLUMNS|
    ensures ValueAfter(ProductAssignments(p, now), PRODUCT_UPDATE_COLUMNS[k], now) == ProductValues(p)[k]
    ensures ProductUpdatable(ApplyProductPatch(r, p, now))[k] == ProductValues(p)[k].GetOr(ProductUpdatable(r)[k])
  {
    ProductStatementValue(p, now, k);
    if k < 5 {
      ProductPatchPointwise1(r, p, now, k);
    } else if k < 9 {
      ProductPatchPointwise2(r, p, now, k);
    } else if k < 13 {
      ProductPatchPointwise3(r, p, now, k);
    } else if k < 17 {
      ProductPatchPointwise4(r, p, now, k);
    } else if k < 25 {
      ProductPatchPointwise5(r, p, now, k);
    } else {
      ProductPatchPointwise6(r, p, now, k);
    }
  }

  /** The statement leaves the k-th value in the k-th updatable column. */
  lemma ProductStatementValue(p: ProductPatch, now: string, k: nat)
    requires k < |PRODUCT_UPDATE_COLUMNS|
    ensures ValueAfter(ProductAssignments(p, now), PRODUCT_UPDATE_COLUMNS[k], now) == ProductValues(p)[k]
  {
    ProductColumnsDistinct();
    ProductColumnsExcludeTimestamp();
    ValueAfterFieldsOf(PRODUCT_UPDATE_COLUMNS, ProductValues(p), [Bind("updated_at", SqlText(now))], k, now);
  }

  /**
   * The statement sets `updated_at` to the clock, as the row update does, and
   * assigns no column outside the updatable ones; the id and creation time stay.
   */
  lemma ProductUpdateOtherColumns(r: ProductRow, p: ProductPatch, now: string, column: string)
    requires column !in PRODUCT_UPDATE_COLUMNS
    ensures ValueAfter(ProductAssignments(p, now), "updated_at", now) == Some(SqlText(now))
    ensures column != "updated_at" ==> ValueAfter(ProductAssignments(p, now), column, now) == None
    ensures var after := ApplyProductPatch(r, p, now);
      after.updatedAt == now && after.id == r.id && after.createdAt == r.createdAt
  {
    ProductColumnsExcludeTimestamp();
    if column != "updated_at" {
      ValueAfterFieldsOfOther(PRODUCT_UPDATE_COLUMNS, ProductValues(p), [Bind("updated_at", SqlText(now))], column, now);
    }
  }

  lemma ProductPatchPointwise1(r: ProductRow, p: ProductPatch, now: string, k: nat)
    requires k < 5
    ensures ProductColumnAt(ApplyProductPatch(r, p, now), k) == ProductValueAt(p, k).GetOr(ProductColumnAt(r, k))
  {
  }

  lemma ProductPatchPointwise2(r: ProductRow, p: ProductPatch, now: string, k: nat)
    requires 5 <= k < 9
    ensures ProductColumnAt(ApplyProductPatch(r, p, now), k) == ProductValueAt(p, k).GetOr(ProductColumnAt(r, k))
  {
  }

  lemma ProductPatchPointwise3(r: ProductRow, p: ProductPatch, now: string, k: nat)
    requires 9 <= k < 13
    ensures ProductColumnAt(ApplyProductPatch(r, p, now), k) == ProductValueAt(p, k).GetOr(ProductColumnAt(r, k))
  {
  }

  lemma ProductPatchPointwise4(r: ProductRow, p: ProductPatch, now: string, k: nat)
    requires 13 <= k < 17
    ensures ProductColumnAt(ApplyProductPatch(r, p, now), k) == ProductValueAt(p, k).GetOr(ProductColumnAt(r, k))
  {
  }

  lemma ProductPatchPointwise5(r: ProductRow, p: ProductPatch, now: string, k: nat)
    requires 17 <= k < 25
    ensures ProductColumnAt(ApplyProductPatch(r, p, now), k) == ProductValueAt(p, k).GetOr(ProductColumnAt(r, k))
  {
  }

  lemma ProductPatchPointwise6(r: ProductRow, p: ProductPatch, now: string, k: nat)
    requires 25 <= k < |PRODUCT_UPDATE_COLUMNS|
    ensures ProductColumnAt(ApplyProductPatch(r, p, now), k) == ProductValueAt(p, k).GetOr(ProductColumnAt(r, k))
  {
  }

  /** A supplied dosage sets the three dosage columns together, and an absent one sets none of them. */
  lemma ProductDosageTogether(p: ProductPatch, now: string)
    ensures var a := ProductAssignments(p, now);
      && (ValueAfter(a, "min_dosage", now).Some? <==> p.recommendedDosage.Some?)
      && (ValueAfter(a, "max_dosage", now).Some? <==> p.recommendedDosage.Some?)
      && (ValueAfter(a, "dosage_unit", now).Some? <==> p.recommendedDosage.Some?)
  {
    ProductFlagColumnNames();
    ProductDosageColumn(p, now, 20);
    ProductDosageColumn(p, now, 21);
    ProductDosageColumn(p, now, 22);
  }

  /** Where the dosage and active-flag columns sit among the updatable ones. */
  lemma ProductFlagColumnNames()
    ensures PRODUCT_UPDATE_COLUMNS[20] == "min_dosage"
    ensures PRODUCT_UPDATE_COLUMNS[21] == "max_dosage"
    ensures PRODUCT_UPDATE_COLUMNS[22] == "dosage_unit"
    ensures PRODUCT_UPDATE_COLUMNS[33] == "is_active"
  {
    assert |IDENTITY_COLUMNS| == 14;
    assert DETAIL_COLUMNS[6] == "min_dosage";
    assert DETAIL_COLUMNS[7] == "max_dosage";
    assert DETAIL_COLUMNS[8] == "dosage_unit";
    assert DETAIL_COLUMNS[19] == "is_active";
  }

  lemma ProductDosageColumn(p: ProductPatch, now: string, k: nat)
    requires 20 <= k <= 22
    ensures ValueAfter(ProductAssignments(p, now), PRODUCT_UPDATE_COLUMNS[k], now).Some? <==> p.recommendedDosage.Some?
  {
    ProductStatementValue(p, now, k);
    ProductDosageValue(p, k);
  }

  lemma ProductDosageValue(p: ProductPatch, k: nat)
    requires 20 <= k <= 22
    ensures ProductValueAt(p, k).Some? <==> p.recommendedDosage.Some?
  {
  }

  /** `is_active` is set exactly when the flag is supplied, and then to 1 for true and 0 for false. */
  lemma ProductActiveFlagStored(p: ProductPatch, now: string)
    ensures var a := ProductAssignments(p, now);
      && (ValueAfter(a, "is_active", now).Some? <==> p.isActive.Some?)
      && (p.isActive.Some? ==> ValueAfter(a, "is_active", now) == Some(SqlInt(if p.isActive.value then 1 else 0)))
  {
    ProductFlagColumnNames();
    ProductStatementValue(p, now, 33);
    ProductFlagValue(p);
  }

  lemma ProductFlagValue(p: ProductPatch)
    ensures ProductValueAt(p, 33) == if p.isActive.Some? then Some(SqlInt(if p.isActive.value then 1 else 0)) else None
  {
  }
}
