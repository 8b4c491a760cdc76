/**
 * The `productions` table operations: listings newest harvest first,
 * filtering by plot or cycle, creating, partially updating and deleting
 * harvest records.
 */
module ProductionRepository {

  import opened Wrappers
  import opened Entities
  import opened Sql
  import opened Tables
  import Seqs
  import Sorting
  import Strings

  /** The harvest record a row maps to; an empty creation time maps to undefined. */
  function ToProduction(r: ProductionRow): (p: Production)
    ensures p.id == r.id && p.plotId == r.plotId && p.cycle == r.cycle && p.harvestDate == r.harvestDate
    ensures p.tonnage == r.tonnage && p.atr == r.atr && p.revenue == r.revenue && p.costs == r.costs
    ensures p.createdAt.None? <==> r.createdAt == ""
  {
    Production(r.id, r.plotId, r.cycle, r.harvestDate, r.tonnage, r.atr, r.revenue, r.costs, r.notes, NonEmpty(Some(r.createdAt)))
  }

  function HarvestDateOf(r: ProductionRow): string { r.harvestDate }

  /** `SELECT … FROM productions ORDER BY harvest_date DESC`: every row, mapped, newest harvest first. */
  function GetAllProductions(rows: seq<ProductionRow>): (r: seq<Production>)
    ensures |r| == |rows|
    ensures forall i, j :: 0 <= i < j < |r| ==> Strings.StrLe(r[j].harvestDate, r[i].harvestDate)
    ensures forall i :: 0 <= i < |rows| ==> ToProduction(rows[i]) in r
    ensures forall i :: 0 <= i < |r| ==> exists j :: 0 <= j < |rows| && r[i] == ToProduction(rows[j])
  {
    Sorting.SortByTextDescending(rows, HarvestDateOf);
    Sorting.SortMembers(rows, Sorting.ByTextDescending(HarvestDateOf));
    assert var r := Sorting.Sort(rows, Sorting.ByTextDescending(HarvestDateOf));
      forall i, j :: 0 <= i < j < |r| ==> Strings.StrLe(HarvestDateOf(r[j]), HarvestDateOf(r[i]));
    var sorted := Sorting.Sort(rows, Sorting.ByTextDescending(HarvestDateOf));
    Seqs.Map(sorted, ToProduction)
  }

  function PlotIs(plotId: string): ProductionRow -> bool
  {
    (r: ProductionRow) => r.plotId == plotId
  }

  function CycleIs(cycle: int): ProductionRow -> bool
  {
    (r: ProductionRow) => r.cycle == cycle
  }

  /** `… WHERE plot_id = ? ORDER BY harvest_date DESC`: exactly that plot's harvests, newest first. */
  function GetProductionsByPlot(rows: seq<ProductionRow>, plotId: string): (r: seq<Production>)
    ensures forall i :: 0 <= i < |r| ==> r[i].plotId == plotId
    ensures forall i, j :: 0 <= i < j < |r| ==> Strings.StrLe(r[j].harvestDate, r[i].harvestDate)
    ensures forall i :: 0 <= i < |rows| && rows[i].plotId == plotId ==> ToProduction(rows[i]) in r
  {
    ListedByPlot(rows, plotId);
    GetAllProductions(Seqs.Filter(rows, PlotIs(plotId)))
  }

  lemma ListedByPlot(rows: seq<ProductionRow>, plotId: string)
    ensures var r := GetAllProductions(Seqs.Filter(rows, PlotIs(plotId)));
      && (forall i :: 0 <= i < |r| ==> r[i].plotId == plotId)
      && (forall i :: 0 <= i < |rows| && rows[i].plotId == plotId ==> ToProduction(rows[i]) in r)
  {
    var matching := Seqs.Filter(rows, PlotIs(plotId));
    assert forall i :: 0 <= i < |rows| && rows[i].plotId == plotId ==> PlotIs(plotId)(rows[i]);
    assert forall i :: 0 <= i < |matching| ==> matching[i].plotId == plotId;
    assert forall i :: 0 <= i < |rows| && rows[i].plotId == plotId ==> exists k :: 0 <= k < |matching| && matching[k] == rows[i];
  }

  /** `… WHERE cycle = ? ORDER BY harvest_date DESC`: exactly that cycle's harvests, newest first. */
  function GetProductionsByCycle(rows: seq<ProductionRow>, cycle: int): (r: seq<Production>)
    ensures forall i :: 0 <= i < |r| ==> r[i].cycle == cycle
    ensures forall i, j :: 0 <= i < j < |r| ==> Strings.StrLe(r[j].harvestDate, r[i].harvestDate)
    ensures forall i :: 0 <= i < |rows| && rows[i].cycle == cycle ==> ToProduction(rows[i]) in r
  {
    ListedByCycle(rows, cycle);
    GetAllProductions(Seqs.Filter(rows, CycleIs(cycle)))
  }

  lemma ListedByCycle(rows: seq<ProductionRow>, cycle: int)
    ensures var r := GetAllProductions(Seqs.Filter(rows, CycleIs(cycle)));
      && (forall i :: 0 <= i < |r| ==> r[i].cycle == cycle)
      && (forall i :: 0 <= i < |rows| && rows[i].cycle == cycle ==> ToProduction(rows[i]) in r)
  {
    var matching := Seqs.Filter(rows, CycleIs(cycle));
    assert forall i :: 0 <= i < |rows| && rows[i].cycle == cycle ==> CycleIs(cycle)(rows[i]);
    assert forall i :: 0 <= i < |matching| ==> matching[i].cycle == cycle;
    assert forall i :: 0 <= i < |rows| && rows[i].cycle == cycle ==> exists k :: 0 <= k < |matching| && matching[k] == rows[i];
  }

  /** What `createProduction` receives: a harvest without id and creation time. */
  datatype NewProduction = NewProduction(
    plotId: string,
    cycle: int,
    harvestDate: string,
    tonnage: real,
    atr: real,
    revenue: real,
    costs: real,
    notes: Option<string>)

  /** The row `createProduction` inserts; empty notes are stored as NULL. */
  function NewProductionRow(x: NewProduction, id: string, now: string): ProductionRow
  {
    ProductionRow(id, x.plotId, x.cycle, x.harvestDate, x.tonnage, x.atr, x.revenue, x.costs, NonEmpty(x.notes), now)
  }

  /** `createProduction`: appends one row; `id` and `now` are the generated id and clock. */
  method CreateProduction(db: Database, x: NewProduction, id: string, now: string) returns (newId: string)
    modifies db`productions
    ensures newId == id
    ensures db.productions == old(db.productions) + [NewProductionRow(x, id, now)]
  {
    db.productions := db.productions + [NewProductionRow(x, id, now)];
    newId := id;
  }

  /** A created harvest is listed under its plot with the plot, cycle, date and figures it was given. */
  lemma CreatedProductionListed(rows: seq<ProductionRow>, x: NewProduction, id: string, now: string)
    ensures var p := ToProduction(NewProductionRow(x, id, now));
      && p in GetProductionsByPlot(rows + [NewProductionRow(x, id, now)], x.plotId)
      && p in GetProductionsByCycle(rows + [NewProductionRow(x, id, now)], x.cycle)
      && p.plotId == x.plotId && p.cycle == x.cycle && p.harvestDate == x.harvestDate
      && p.tonnage == x.tonnage && p.atr == x.atr && p.revenue == x.revenue && p.costs == x.costs
  {
    var all := rows + [NewProductionRow(x, id, now)];
    assert all[|rows|] == NewProductionRow(x, id, now);
  }

  /** The fields a `Partial<Production>` may carry; None is `undefined`. */
  datatype ProductionPatch = ProductionPatch(
    plotId: Option<string>,
    cycle: Option<int>,
    harvestDate: Option<string>,
    tonnage: Option<real>,
    atr: Option<real>,
    revenue: Option<real>,
    costs: Option<real>,
    notes: Option<string>)

  /** The columns `updateProduction` may push, in the order it tests them, with the values it binds. */
  function ProductionFields(p: ProductionPatch): seq<Field>
  {
    [ TextField("plot_id", p.plotId),
      IntField("cycle", p.cycle),
      TextField("harvest_date", p.harvestDate),
      RealField("tonnage", p.tonnage),
      RealField("atr", p.atr),
      RealField("revenue", p.revenue),
      RealField("costs", p.costs),
      TextField("notes", p.notes) ]
  }

  /** The SET list of `updateProduction`: the supplied fields and nothing else (no timestamp column). */
  function ProductionAssignments(p: ProductionPatch): seq<Assignment>
  {
    Supplied(ProductionFields(p))
  }

  /** A row as SQLite sees it: the value held in each column; None for a column the table lacks. */
  function ProductionColumn(r: ProductionRow, column: string): Option<SqlValue>
  {
    if column == "id" then Some(SqlText(r.id))
    else if column == "plot_id" then Some(SqlText(r.plotId))
    else if column == "cycle" then Some(SqlInt(r.cycle))
    else if column == "harvest_date" then Some(SqlText(r.harvestDate))
    else if column == "tonnage" then Some(SqlReal(r.tonnage))
    else if column == "atr" then Some(SqlReal(r.atr))
    else if column == "revenue" then Some(SqlReal(r.revenue))
    else if column == "costs" then Some(SqlReal(r.costs))
    else if column == "notes" then Some(TextOrNull(r.notes))
    else if column == "created_at" then Some(SqlText(r.createdAt))
    else None
  }

  /** A row after `updateProduction`: each supplied field replaced. */
  function ApplyProductionPatch(r: ProductionRow, p: ProductionPatch): ProductionRow
  {
    r.(plotId := p.plotId.GetOr(r.plotId),
       cycle := p.cycle.GetOr(r.cycle),
       harvestDate := p.harvestDate.GetOr(r.harvestDate),
       tonnage := p.tonnage.GetOr(r.tonnage),
       atr := p.atr.GetOr(r.atr),
       revenue := p.revenue.GetOr(r.revenue),
       costs := p.costs.GetOr(r.costs),
       notes := if p.notes.Some? then p.notes else r.notes)
  }

  /** The table after `UPDATE productions SET … WHERE id = ?`. */
  function UpdateRows(rows: seq<ProductionRow>, id: string, p: ProductionPatch): seq<ProductionRow>
  {
    Seqs.Map(rows, (r: ProductionRow) => if r.id == id then ApplyProductionPatch(r, p) else r)
  }

  /** `updateProduction`: no statement when no field is supplied; otherwise one UPDATE of the supplied columns. */
  method UpdateProduction(db: Database, id: string, p: ProductionPatch) returns (st: Option<UpdateStatement>)
    modifies db`productions
    ensures st.None? <==> NoneSupplied(ProductionFields(p))
    ensures st.Some? ==> st.value == UpdateStatement("productions", ProductionAssignments(p), id)
    ensures st.None? ==> db.productions == old(db.productions)
    ensures st.Some? ==> db.productions == UpdateRows(old(db.productions), id, p)
  {
    var assignments := BuildAssignments(ProductionFields(p));
    if |assignments| == 0 {
      st := None;
    } else {
      st := Some(UpdateStatement("productions", assignments, id));
      db.productions := UpdateRows(db.productions, id, p);
    }
  }

  /** The statement of `updateProduction` binds one value per supplied field plus the id, one per placeholder. */
  lemma ProductionStatementShape(id: string, p: ProductionPatch)
    ensures var st := UpdateStatement("productions", ProductionAssignments(p), id);
      && |BoundValues(st)| == SuppliedCount(ProductionFields(p)) + 1
      && Placeholders(Render(st)) == |BoundValues(st)|
  {
    BoundValuesCount("productions", ProductionFields(p), [], id);
    assert Supplied(ProductionFields(p)) + [] == Supplied(ProductionFields(p));
  }

  /** `updateProduction` never touches a timestamp column, and binds every column it sets. */
  lemma ProductionStatementNoTimestamp(p: ProductionPatch)
    ensures AllBound(ProductionAssignments(p))
    ensures "created_at" !in Columns(ProductionAssignments(p))
  {
    ProductionFieldsColumns(p);
    SuppliedColumnsNamed(ProductionFields(p));
  }

  /** An update with no supplied field changes no row. */
  lemma EmptyProductionPatchChangesNothing(rows: seq<ProductionRow>, id: string, p: ProductionPatch)
    requires NoneSupplied(ProductionFields(p))
    ensures UpdateRows(rows, id, p) == rows
  {
    var fields := ProductionFields(p);
    assert fields[0].value.None? && fields[1].value.None? && fields[2].value.None? && fields[3].value.None?;
    assert fields[4].value.None? && fields[5].value.None? && fields[6].value.None? && fields[7].value.None?;
    assert forall i :: 0 <= i < |rows| ==> UpdateRows(rows, id, p)[i] == rows[i];
  }

  function IdIsNot(id: string): ProductionRow -> bool
  {
    (r: ProductionRow) => r.id != id
  }

  /** `deleteProduction`: removes the row with that id and nothing else. */
  method DeleteProduction(db: Database, id: string)
    modifies db`productions
    ensures db.productions == Seqs.Filter(old(db.productions), IdIsNot(id))
    ensures forall i :: 0 <= i < |db.productions| ==> db.productions[i].id != id
    ensures forall i :: 0 <= i < |old(db.productions)| && old(db.productions)[i].id != id ==> old(db.productions)[i] in db.productions
  {
    db.productions := Seqs.Filter(db.productions, IdIsNot(id));
    assert forall i :: 0 <= i < |old(db.productions)| && old(db.productions)[i].id != id ==> IdIsNot(id)(old(db.productions)[i]);
  }

  /** Column `column` holds the value the statement leaves in it, or is unchanged when the statement does not assign it. */
  predicate ProductionAgreesAt(r: ProductionRow, p: ProductionPatch, now: string, column: string)
  {
    match ValueAfter(ProductionAssignments(p), column, now)
    case Some(v) => ProductionColumn(ApplyProductionPatch(r, p), column) == Some(v)
    case None => ProductionColumn(ApplyProductionPatch(r, p), column) == ProductionColumn(r, column)
  }

  /**
   * The statement and the row update agree: a column the statement assigns
   * holds the statement's value afterwards, and every other column is unchanged.
   */
  lemma ProductionUpdateAgrees(r: ProductionRow, p: ProductionPatch, now: string, column: string)
    ensures ProductionAgreesAt(r, p, now, column)
  {
    if column == "plot_id" || column == "cycle" || column == "harvest_date" {
      ProductionUpdateAgreesGroup1(r, p, now, column);
    } else if column == "tonnage" || column == "atr" || column == "revenue" {
      ProductionUpdateAgreesGroup2(r, p, now, column);
    } else if column == "costs" || column == "notes" {
      ProductionUpdateAgreesGroup3(r, p, now, column);
    } else {
      ProductionUpdateAgreesOther(r, p, now, column);
    }
  }

  lemma ProductionUpdateAgreesGroup1(r: ProductionRow, p: ProductionPatch, now: string, column: string)
    requires column == "plot_id" || column == "cycle" || column == "harvest_date"
    ensures ProductionAgreesAt(r, p, now, column)
  {
    var fields := ProductionFields(p);
    ValueAfterSupplied(fields, column, now);
    ProductionFieldsColumns(p);
    var after := ApplyProductionPatch(r, p);
    if column == "plot_id" {
      LastValueAt(fields, 0);
      assert ProductionColumn(after, column) == Some(SqlText(after.plotId));
      assert ProductionColumn(r, column) == Some(SqlText(r.plotId));
    } else if column == "cycle" {
      LastValueAt(fields, 1);
      assert ProductionColumn(after, column) == Some(SqlInt(after.cycle));
      assert ProductionColumn(r, column) == Some(SqlInt(r.cycle));
    } else {
      LastValueAt(fields, 2);
      assert ProductionColumn(after, column) == Some(SqlText(after.harvestDate));
      assert ProductionColumn(r, column) == Some(SqlText(r.harvestDate));
    }
  }

  lemma ProductionUpdateAgreesGroup2(r: ProductionRow, p: ProductionPatch, now: string, column: string)
    requires column == "tonnage" || column == "atr" || column == "revenue"
    ensures ProductionAgreesAt(r, p, now, column)
  {
    var fields := ProductionFields(p);
    ValueAfterSupplied(fields, column, now);
    ProductionFieldsColumns(p);
    var after := ApplyProductionPatch(r, p);
    if column == "tonnage" {
      LastValueAt(fields, 3);
      assert ProductionColumn(after, column) == Some(SqlReal(after.tonnage));
      assert ProductionColumn(r, column) == Some(SqlReal(r.tonnage));
    } else if column == "atr" {
      LastValueAt(fields, 4);
      assert ProductionColumn(after, column) == Some(SqlReal(after.atr));
      assert ProductionColumn(r, column) == Some(SqlReal(r.atr));
    } else {
      LastValueAt(fields, 5);
      assert ProductionColumn(after, column) == Some(SqlReal(after.revenue));
      assert ProductionColumn(r, column) == Some(SqlReal(r.revenue));
    }
  }

  lemma ProductionUpdateAgreesGroup3(r: ProductionRow, p: ProductionPatch, now: string, column: string)
    requires column == "costs" || column == "notes"
    ensures ProductionAgreesAt(r, p, now, column)
  {
    var fields := ProductionFields(p);
    ValueAfterSupplied(fields, column, now);
    ProductionFieldsColumns(p);
    var after := ApplyProductionPatch(r, p);
    if column == "costs" {
      LastValueAt(fields, 6);
      assert ProductionColumn(after, column) == Some(SqlReal(after.costs));
      assert ProductionColumn(r, column) == Some(SqlReal(r.costs));
    } else {
      LastValueAt(fields, 7);
      assert ProductionColumn(after, column) == Some(TextOrNull(after.notes));
      assert ProductionColumn(r, column) == Some(TextOrNull(r.notes));
    }
  }

  /** The statement assigns no column outside the updatable ones. */
  lemma ProductionStatementOther(p: ProductionPatch, now: string, column: string)
    requires column !in PRODUCTION_UPDATE_COLUMNS
    ensures ValueAfter(ProductionAssignments(p), column, now) == None
  {
    var fields := ProductionFields(p);
    ValueAfterSupplied(fields, column, now);
    ProductionFieldsColumns(p);
    forall i | 0 <= i < |fields| ensures fields[i].column != column {
      assert fields[i].column == PRODUCTION_UPDATE_COLUMNS[i];
    }
    LastValueAbsent(fields, column);
  }

  lemma ProductionUpdateAgreesOther(r: ProductionRow, p: ProductionPatch, now: string, column: string)
    requires column !in PRODUCTION_UPDATE_COLUMNS
    ensures ProductionAgreesAt(r, p, now, column)
  {
    ProductionStatementOther(p, now, column);
    var after := ApplyProductionPatch(r, p);
    assert after.id == r.id && after.createdAt == r.createdAt;
    ProductionColumnOther(after, r, column);
  }

  /** Outside the columns an update sets, a row's columns are unchanged when these fields are. */
  lemma ProductionColumnOther(a: ProductionRow, b: ProductionRow, column: string)
    requires column !in PRODUCTION_UPDATE_COLUMNS
    requires a.id == b.id && a.createdAt == b.createdAt
    ensures ProductionColumn(a, column) == ProductionColumn(b, column)
  {
  }

  /** The columns the update may set from supplied fields, each once. */
  const PRODUCTION_UPDATE_COLUMNS: seq<string> :=
    ["plot_id", "cycle", "harvest_date", "tonnage", "atr", "revenue", "costs", "notes"]

  lemma ProductionFieldsColumns(p: ProductionPatch)
    ensures FieldColumns(ProductionFields(p)) == PRODUCTION_UPDATE_COLUMNS
    ensures Seqs.NoDuplicates(PRODUCTION_UPDATE_COLUMNS)
  {
  }
}
