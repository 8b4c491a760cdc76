/**
 * The `plots` table operations: listing ordered by plot number, filtering by
 * cycle or status, allocating the next plot number, creating, partially
 * updating and deleting plots.
 */
module PlotRepository {

  import opened Wrappers
  import opened Entities
  import opened Sql
  import opened Tables
  import Seqs
  import Sorting

  /** The plot a row maps to. `now` stands for the `new Date()` used when the planting date is empty. */
  function ToPlot(r: PlotRow, now: string): (p: Plot)
    ensures p.id == r.id && p.number == r.number && p.area == r.area
    ensures p.currentCycle == r.currentCycle && p.status == r.status
    ensures p.lastHarvestDate.None? <==> r.lastHarvestDate.None? || r.lastHarvestDate.value == ""
  {
    Plot(r.id, r.number, r.name, r.area, r.currentCycle,
      if r.plantingDate != "" then r.plantingDate else now,
      NonEmpty(r.lastHarvestDate), r.status, r.soilType, r.notes,
      NonEmpty(Some(r.createdAt)), NonEmpty(Some(r.updatedAt)))
  }

  function NumberOf(r: PlotRow): int { r.number }

  /** The rows in ascending number order (a stable sort). */
  function SortedByNumber(rows: seq<PlotRow>): (r: seq<PlotRow>)
    ensures |r| == |rows|
    ensures forall i, j :: 0 <= i < j < |r| ==> r[i].number <= r[j].number
    ensures forall i :: 0 <= i < |rows| ==> rows[i] in r
    ensures forall i :: 0 <= i < |r| ==> r[i] in rows
    ensures multiset(r) == multiset(rows)
    ensures forall n :: Seqs.Filter(r, Sorting.KeyIs(NumberOf, n)) == Seqs.Filter(rows, Sorting.KeyIs(NumberOf, n))
  {
    Sorting.SortByKeyAscending(rows, NumberOf);
    Sorting.SortStableByKeyAscending(rows, NumberOf);
    Sorting.SortMembers(rows, Sorting.ByKeyAscending(NumberOf));
    assert var r := Sorting.Sort(rows, Sorting.ByKeyAscending(NumberOf));
      forall i, j :: 0 <= i < j < |r| ==> NumberOf(r[i]) <= NumberOf(r[j]);
    Sorting.Sort(rows, Sorting.ByKeyAscending(NumberOf))
  }

  /** Each row mapped, in the order given. */
  function ToPlots(rows: seq<PlotRow>, now: string): (r: seq<Plot>)
    ensures |r| == |rows|
    ensures forall i :: 0 <= i < |rows| ==> r[i] == ToPlot(rows[i], now)
  {
    if |rows| == 0 then [] else ToPlots(rows[..|rows| - 1], now) + [ToPlot(rows[|rows| - 1], now)]
  }

  /** `SELECT … FROM plots ORDER BY number`: every row, mapped, in ascending number order. */
  function GetAllPlots(rows: seq<PlotRow>, now: string): (r: seq<Plot>)
    ensures |r| == |rows|
    ensures forall i, j :: 0 <= i < j < |r| ==> r[i].number <= r[j].number
    ensures forall i :: 0 <= i < |rows| ==> ToPlot(rows[i], now) in r
    ensures forall i :: 0 <= i < |r| ==> exists j :: 0 <= j < |rows| && r[i] == ToPlot(rows[j], now)
  {
    var sorted := SortedByNumber(rows);
    ToPlotsOrdered(sorted, now);
    ToPlotsCover(rows, sorted, now);
    ToPlotsFrom(rows, sorted, now);
    ToPlots(sorted, now)
  }

  lemma ToPlotsOrdered(sorted: seq<PlotRow>, now: string)
    requires forall i, j :: 0 <= i < j < |sorted| ==> sorted[i].number <= sorted[j].number
    ensures var r := ToPlots(sorted, now); forall i, j :: 0 <= i < j < |r| ==> r[i].number <= r[j].number
  {
    var r := ToPlots(sorted, now);
    forall i, j | 0 <= i < j < |r| ensures r[i].number <= r[j].number {
      assert r[i].number == sorted[i].number && r[j].number == sorted[j].number;
    }
  }

  lemma ToPlotsCover(rows: seq<PlotRow>, sorted: seq<PlotRow>, now: string)
    requires forall i :: 0 <= i < |rows| ==> rows[i] in sorted
    ensures forall i :: 0 <= i < |rows| ==> ToPlot(rows[i], now) in ToPlots(sorted, now)
  {
    var r := ToPlots(sorted, now);
    forall i | 0 <= i < |rows| ensures ToPlot(rows[i], now) in r {
      var k :| 0 <= k < |sorted| && sorted[k] == rows[i];
      assert r[k] == ToPlot(rows[i], now);
    }
  }

  lemma ToPlotsFrom(rows: seq<PlotRow>, sorted: seq<PlotRow>, now: string)
    requires forall i :: 0 <= i < |sorted| ==> sorted[i] in rows
    ensures var r := ToPlots(sorted, now); forall i :: 0 <= i < |r| ==> exists j :: 0 <= j < |rows| && r[i] == ToPlot(rows[j], now)
  {
    var r := ToPlots(sorted, now);
    forall i | 0 <= i < |r| ensures exists j :: 0 <= j < |rows| && r[i] == ToPlot(rows[j], now) {
      var j :| 0 <= j < |rows| && rows[j] == sorted[i];
      assert r[i] == ToPlot(rows[j], now);
    }
  }

  function CycleIs(cycle: int): PlotRow -> bool
  {
    (r: PlotRow) => r.currentCycle == cycle
  }

  function StatusIs(status: PlotStatus): PlotRow -> bool
  {
    (r: PlotRow) => r.status == status
  }

  /** `p` is the mapping of one of the rows `keep` selects. */
  predicate FromKeptRow(p: Plot, rows: seq<PlotRow>, keep: PlotRow -> bool, now: string)
  {
    exists j :: 0 <= j < |rows| && keep(rows[j]) && p == ToPlot(rows[j], now)
  }

  /** Every plot listed for a selection comes from a row the selection keeps. */
  lemma SelectedPlotsKept(rows: seq<PlotRow>, keep: PlotRow -> bool, now: string)
    ensures var r := GetAllPlots(Seqs.Filter(rows, keep), now);
      forall i :: 0 <= i < |r| ==> FromKeptRow(r[i], rows, keep, now)
  {
    var r := GetAllPlots(Seqs.Filter(rows, keep), now);
    forall i | 0 <= i < |r| ensures FromKeptRow(r[i], rows, keep, now) {
      SelectedPlotKept(rows, keep, now, i);
    }
  }

  lemma SelectedPlotKept(rows: seq<PlotRow>, keep: PlotRow -> bool, now: string, i: nat)
    requires i < |GetAllPlots(Seqs.Filter(rows, keep), now)|
    ensures FromKeptRow(GetAllPlots(Seqs.Filter(rows, keep), now)[i], rows, keep, now)
  {
    var matching := Seqs.Filter(rows, keep);
    var r := GetAllPlots(matching, now);
    var k :| 0 <= k < |matching| && r[i] == ToPlot(matching[k], now);
    KeptRowFrom(rows, keep, matching[k], now);
  }

  lemma KeptRowFrom(rows: seq<PlotRow>, keep: PlotRow -> bool, x: PlotRow, now: string)
    requires x in Seqs.Filter(rows, keep)
    ensures FromKeptRow(ToPlot(x, now), rows, keep, now)
  {
    KeptRowIn(rows, keep, x);
    var j :| 0 <= j < |rows| && rows[j] == x;
    assert keep(rows[j]) && ToPlot(x, now) == ToPlot(rows[j], now);
  }

  lemma KeptRowIn(rows: seq<PlotRow>, keep: PlotRow -> bool, x: PlotRow)
    requires x in Seqs.Filter(rows, keep)
    ensures x in rows && keep(x)
  {
  }

  /** A row of the listed table is listed, mapped. */
  lemma RowListed(rows: seq<PlotRow>, x: PlotRow, now: string)
    requires x in rows
    ensures ToPlot(x, now) in GetAllPlots(rows, now)
  {
    var k :| 0 <= k < |rows| && rows[k] == x;
  }

  /** Every row a selection keeps is listed, mapped. */
  lemma SelectedPlotsListed(rows: seq<PlotRow>, keep: PlotRow -> bool, now: string)
    ensures var r := GetAllPlots(Seqs.Filter(rows, keep), now);
      forall i :: 0 <= i < |rows| && keep(rows[i]) ==> ToPlot(rows[i], now) in r
  {
    var matching := Seqs.Filter(rows, keep);
    forall i | 0 <= i < |rows| && keep(rows[i]) ensures ToPlot(rows[i], now) in GetAllPlots(matching, now) {
      assert rows[i] in matching;
      RowListed(matching, rows[i], now);
    }
  }

  /** `… WHERE current_cycle = ? ORDER BY number`: exactly the plots in that cycle, by number. */
  function GetPlotsByCycle(rows: seq<PlotRow>, cycle: int, now: string): (r: seq<Plot>)
    ensures forall i :: 0 <= i < |r| ==> r[i].currentCycle == cycle
    ensures forall i, j :: 0 <= i < j < |r| ==> r[i].number <= r[j].number
    ensures forall i :: 0 <= i < |rows| && rows[i].currentCycle == cycle ==> ToPlot(rows[i], now) in r
  {
    SelectedPlotsKept(rows, CycleIs(cycle), now);
    SelectedPlotsListed(rows, CycleIs(cycle), now);
    GetAllPlots(Seqs.Filter(rows, CycleIs(cycle)), now)
  }

  /** `… WHERE status = ? ORDER BY number`: exactly the plots with that status, by number. */
  function GetPlotsByStatus(rows: seq<PlotRow>, status: PlotStatus, now: string): (r: seq<Plot>)
    ensures forall i :: 0 <= i < |r| ==> r[i].status == status
    ensures forall i, j :: 0 <= i < j < |r| ==> r[i].number <= r[j].number
    ensures forall i :: 0 <= i < |rows| && rows[i].status == status ==> ToPlot(rows[i], now) in r
  {
    SelectedPlotsKept(rows, StatusIs(status), now);
    SelectedPlotsListed(rows, StatusIs(status), now);
    GetAllPlots(Seqs.Filter(rows, StatusIs(status)), now)
  }

  /** `SELECT MAX(number) FROM plots`: NULL on an empty table. */
  function MaxNumber(rows: seq<PlotRow>): (m: Option<int>)
    ensures m.None? <==> |rows| == 0
    ensures m.Some? ==> forall i :: 0 <= i < |rows| ==> rows[i].number <= m.value
    ensures m.Some? ==> exists i :: 0 <= i < |rows| && rows[i].number == m.value
  {
    if |rows| == 0 then None
    else
      var rest := MaxNumber(rows[1..]);
      if rest.None? || rows[0].number >= rest.value then Some(rows[0].number)
      else
        assert forall i :: 1 <= i < |rows| ==> rows[i] == rows[1..][i - 1];
        rest
  }

  /** `(maxNumber || 0) + 1`: one more than the largest number, or 1 on an empty table. */
  function GetNextPlotNumber(rows: seq<PlotRow>): (n: int)
    ensures |rows| == 0 ==> n == 1
    ensures forall i :: 0 <= i < |rows| ==> rows[i].number < n
    ensures |rows| > 0 ==> exists i :: 0 <= i < |rows| && rows[i].number == n - 1
  {
    var m := MaxNumber(rows);
    (if m.None? || m.value == 0 then 0 else m.value) + 1
  }

  /** What `createPlot` receives: a plot without id, number and timestamps. */
  datatype NewPlot = NewPlot(
    name: Option<string>,
    area: real,
    currentCycle: int,
    plantingDate: string,
    lastHarvestDate: Option<string>,
    status: PlotStatus,
    coordinates: Option<string>,
    soilType: Option<string>,
    notes: Option<string>)

  /** The row `createPlot` inserts; empty optional texts are stored as NULL (`x || null`). */
  function NewPlotRow(p: NewPlot, id: string, number: int, now: string): PlotRow
  {
    PlotRow(id, number, NonEmpty(p.name), p.area, p.currentCycle, p.plantingDate,
      NonEmpty(p.lastHarvestDate), p.status, p.coordinates, NonEmpty(p.soilType), NonEmpty(p.notes), now, now)
  }

  /** `createPlot`: the new row gets the next plot number; `id` and `now` are the generated id and clock. */
  method CreatePlot(db: Database, p: NewPlot, id: string, now: string) returns (newId: string)
    modifies db`plots
    ensures newId == id
    ensures db.plots == old(db.plots) + [NewPlotRow(p, id, GetNextPlotNumber(old(db.plots)), now)]
  {
    var next := GetNextPlotNumber(db.plots);
    db.plots := db.plots + [NewPlotRow(p, id, next, now)];
    newId := id;
  }

  /** No two rows share a plot number (`number INTEGER UNIQUE`). */
  predicate UniqueNumbers(rows: seq<PlotRow>)
  {
    forall i, j :: 0 <= i < j < |rows| ==> rows[i].number != rows[j].number
  }

  /** No two rows share an id (`id TEXT PRIMARY KEY`). */
  predicate UniqueIds(rows: seq<PlotRow>)
  {
    forall i, j :: 0 <= i < j < |rows| ==> rows[i].id != rows[j].id
  }

  /** A created plot is numbered above every existing plot, so plot numbers stay unique. */
  lemma CreatePlotKeepsNumbersUnique(rows: seq<PlotRow>, p: NewPlot, id: string, now: string)
    requires UniqueNumbers(rows)
    ensures forall i :: 0 <= i < |rows| ==> rows[i].number < NewPlotRow(p, id, GetNextPlotNumber(rows), now).number
    ensures UniqueNumbers(rows + [NewPlotRow(p, id, GetNextPlotNumber(rows), now)])
  {
    var all := rows + [NewPlotRow(p, id, GetNextPlotNumber(rows), now)];
    forall i, j | 0 <= i < j < |all| ensures all[i].number != all[j].number {
      if j < |rows| {
        assert all[i] == rows[i] && all[j] == rows[j];
      } else {
        assert all[i] == rows[i];
      }
    }
  }

  /** The fields a `Partial<Plot>` may carry; None is `undefined`. */
  datatype PlotPatch = PlotPatch(
    number: Option<int>,
    name: Option<string>,
    area: Option<real>,
    currentCycle: Option<int>,
    plantingDate: Option<string>,
    lastHarvestDate: Option<string>,
    status: Option<PlotStatus>,
    coordinates: Option<string>,
    soilType: Option<string>,
    notes: Option<string>)

  /** The columns `updatePlot` may push, in the order it tests them, with the values it binds. */
  function PlotFields(p: PlotPatch): seq<Field>
  {
    [ IntField("number", p.number),
      TextField("name", p.name),
      RealField("area", p.area),
      IntField("current_cycle", p.currentCycle),
      TextField("planting_date", p.plantingDate),
      Field("last_harvest_date", if p.lastHarvestDate.Some? then Some(TextOrNull(NonEmpty(p.lastHarvestDate))) else None),
      Field("status", if p.status.Some? then Some(SqlText(StatusName(p.status.value))) else None),
      TextField("coordinates", p.coordinates),
      TextField("soil_type", p.soilType),
      TextField("notes", p.notes) ]
  }

  /** The SET list of `updatePlot`: the supplied fields, then `updated_at = ?` bound to the clock. */
  function PlotAssignments(p: PlotPatch, now: string): seq<Assignment>
  {
    Supplied(PlotFields(p)) + [Bind("updated_at", SqlText(now))]
  }

  /** A row as SQLite sees it: the value held in each column; None for a column the table lacks. */
  function PlotColumn(r: PlotRow, column: string): Option<SqlValue>
  {
    if column == "id" then Some(SqlText(r.id))
    else if column == "number" then Some(SqlInt(r.number))
    else if column == "name" then Some(TextOrNull(r.name))
    else if column == "area" then Some(SqlReal(r.area))
    else if column == "current_cycle" then Some(SqlInt(r.currentCycle))
    else if column == "planting_date" then Some(SqlText(r.plantingDate))
    else if column == "last_harvest_date" then Some(TextOrNull(r.lastHarvestDate))
    else if column == "status" then Some(SqlText(StatusName(r.status)))
    else if column == "coordinates" then Some(TextOrNull(r.coordinates))
    else if column == "soil_type" then Some(TextOrNull(r.soilType))
    else if column == "notes" then Some(TextOrNull(r.notes))
    else if column == "created_at" then Some(SqlText(r.createdAt))
    else if column == "updated_at" then Some(SqlText(r.updatedAt))
    else None
  }

  /** A row after `updatePlot`: each supplied field replaced, `updated_at` set to the clock. */
  function ApplyPlotPatch(r: PlotRow, p: PlotPatch, now: string): PlotRow
  {
    r.(number := p.number.GetOr(r.number),
       name := if p.name.Some? then p.name else r.name,
       area := p.area.GetOr(r.area),
       currentCycle := p.currentCycle.GetOr(r.currentCycle),
       plantingDate := p.plantingDate.GetOr(r.plantingDate),
       lastHarvestDate := if p.lastHarvestDate.Some? then NonEmpty(p.lastHarvestDate) else r.lastHarvestDate,
       status := p.status.GetOr(r.status),
       coordinates := if p.coordinates.Some? then p.coordinates else r.coordinates,
       soilType := if p.soilType.Some? then p.soilType else r.soilType,
       notes := if p.notes.Some? then p.notes else r.notes,
       updatedAt := now)
  }

  /** The table after `UPDATE plots SET … WHERE id = ?` succeeds. */
  function UpdateRows(rows: seq<PlotRow>, id: string, p: PlotPatch, now: string): seq<PlotRow>
  {
    Seqs.Map(rows, (r: PlotRow) => if r.id == id then ApplyPlotPatch(r, p, now) else r)
  }

  /** The update would give the plot a number another plot already has, which `UNIQUE` refuses. */
  predicate ViolatesUniqueNumber(rows: seq<PlotRow>, id: string, p: PlotPatch)
  {
    p.number.Some?
    && (exists i :: 0 <= i < |rows| && rows[i].id == id)
    && (exists j :: 0 <= j < |rows| && rows[j].id != id && rows[j].number == p.number.value)
  }

  /**
   * `updatePlot`: always issues an UPDATE (it sets `updated_at` even when no
   * other field is supplied). The statement is refused, and the table left as
   * it was, when it would duplicate a plot number.
   */
  method UpdatePlot(db: Database, id: string, p: PlotPatch, now: string) returns (st: UpdateStatement, applied: bool)
    modifies db`plots
    ensures st == UpdateStatement("plots", PlotAssignments(p, now), id)
    ensures applied <==> !ViolatesUniqueNumber(old(db.plots), id, p)
    ensures applied ==> db.plots == UpdateRows(old(db.plots), id, p, now)
    ensures !applied ==> db.plots == old(db.plots)
  {
    var assignments := BuildAssignments(PlotFields(p));
    assignments := assignments + [Bind("updated_at", SqlText(now))];
    st := UpdateStatement("plots", assignments, id);
    applied := !ViolatesUniqueNumber(db.plots, id, p);
    if applied {
      db.plots := UpdateRows(db.plots, id, p, now);
    }
  }

  /** The statement of `updatePlot` always sets `updated_at`, binds one value per placeholder, and binds supplied fields + 2 values. */
  lemma PlotStatementShape(id: string, p: PlotPatch, now: string)
    ensures var st := UpdateStatement("plots", PlotAssignments(p, now), id);
      && |BoundValues(st)| == SuppliedCount(PlotFields(p)) + 2
      && Placeholders(Render(st)) == |BoundValues(st)|
      && st.assignments[|st.assignments| - 1] == Bind("updated_at", SqlText(now))
      && (NoneSupplied(PlotFields(p)) ==> st.assignments == [Bind("updated_at", SqlText(now))])
  {
    var tail := [Bind("updated_at", SqlText(now))];
    assert AssignmentValues(tail) == [SqlText(now)];
    BoundValuesCount("plots", PlotFields(p), tail, id);
  }

  /** Column `column` holds the value the statement leaves in it, or is unchanged when the statement does not assign it. */
  predicate PlotAgreesAt(r: PlotRow, p: PlotPatch, now: string, column: string)
  {
    match ValueAfter(PlotAssignments(p, now), column, now)
    case Some(v) => PlotColumn(ApplyPlotPatch(r, p, now), column) == Some(v)
    case None => PlotColumn(ApplyPlotPatch(r, p, now), column) == PlotColumn(r, column)
  }

  /**
   * The statement and the row update agree: a column the statement assigns
   * holds the statement's value afterwards, and every other column is unchanged.
   */
  lemma PlotUpdateAgrees(r: PlotRow, p: PlotPatch, now: string, column: string)
    ensures PlotAgreesAt(r, p, now, column)
  {
    if column == "number" || column == "name" || column == "area" {
      PlotUpdateAgreesGroup1(r, p, now, column);
    } else if column == "current_cycle" || column == "planting_date" || column == "last_harvest_date" {
      PlotUpdateAgreesGroup2(r, p, now, column);
    } else if column == "status" || column == "coordinates" {
      PlotUpdateAgreesGroup3(r, p, now, column);
    } else if column == "soil_type" || column == "notes" {
      PlotUpdateAgreesGroup4(r, p, now, column);
    } else {
      PlotUpdateAgreesOther(r, p, now, column);
    }
  }

  lemma PlotUpdateAgreesGroup1(r: PlotRow, p: PlotPatch, now: string, column: string)
    requires column == "number" || column == "name" || column == "area"
    ensures PlotAgreesAt(r, p, now, column)
  {
    if column == "number" {
      PlotAgreesNumber(r, p, now);
    } else if column == "name" {
      PlotAgreesName(r, p, now);
    } else {
      PlotAgreesArea(r, p, now);
    }
  }

  lemma PlotUpdateAgreesGroup2(r: PlotRow, p: PlotPatch, now: string, column: string)
    requires column == "current_cycle" || column == "planting_date" || column == "last_harvest_date"
    ensures PlotAgreesAt(r, p, now, column)
  {
    if column == "current_cycle" {
      PlotAgreesCurrentCycle(r, p, now);
    } else if column == "planting_date" {
      PlotAgreesPlantingDate(r, p, now);
    } else {
      PlotAgreesLastHarvestDate(r, p, now);
    }
  }

  lemma PlotUpdateAgreesGroup3(r: PlotRow, p: PlotPatch, now: string, column: string)
    requires column == "status" || column == "coordinates"
    ensures PlotAgreesAt(r, p, now, column)
  {
    if column == "status" {
      PlotAgreesStatus(r, p, now);
    } else {
      PlotAgreesCoordinates(r, p, now);
    }
  }

  lemma PlotUpdateAgreesGroup4(r: PlotRow, p: PlotPatch, now: string, column: string)
    requires column == "soil_type" || column == "notes"
    ensures PlotAgreesAt(r, p, now, column)
  {
    if column == "soil_type" {
      PlotAgreesSoilType(r, p, now);
    } else {
      PlotAgreesNotes(r, p, now);
    }
  }

  lemma PlotAgreesNumber(r: PlotRow, p: PlotPatch, now: string)
    ensures PlotAgreesAt(r, p, now, "number")
  {
    PlotStatementAt(p, now, 0);
  }

  lemma PlotAgreesName(r: PlotRow, p: PlotPatch, now: string)
    ensures PlotAgreesAt(r, p, now, "name")
  {
    PlotStatementAt(p, now, 1);
  }

  lemma PlotAgreesArea(r: PlotRow, p: PlotPatch, now: string)
    ensures PlotAgreesAt(r, p, now, "area")
  {
    PlotStatementAt(p, now, 2);
  }

  lemma PlotAgreesCurrentCycle(r: PlotRow, p: PlotPatch, now: string)
    ensures PlotAgreesAt(r, p, now, "current_cycle")
  {
    PlotStatementAt(p, now, 3);
  }

  lemma PlotAgreesPlantingDate(r: PlotRow, p: PlotPatch, now: string)
    ensures PlotAgreesAt(r, p, now, "planting_date")
  {
    PlotStatementAt(p, now, 4);
  }

  lemma PlotAgreesLastHarvestDate(r: PlotRow, p: PlotPatch, now: string)
    ensures PlotAgreesAt(r, p, now, "last_harvest_date")
  {
    PlotStatementAt(p, now, 5);
  }

  lemma PlotAgreesStatus(r: PlotRow, p: PlotPatch, now: string)
    ensures PlotAgreesAt(r, p, now, "status")
  {
    PlotStatementAt(p, now, 6);
  }

  lemma PlotAgreesCoordinates(r: PlotRow, p: PlotPatch, now: string)
    ensures PlotAgreesAt(r, p, now, "coordinates")
  {
    PlotStatementAt(p, now, 7);
  }

  lemma PlotAgreesSoilType(r: PlotRow, p: PlotPatch, now: string)
    ensures PlotAgreesAt(r, p, now, "soil_type")
  {
    PlotStatementAt(p, now, 8);
  }

  lemma PlotAgreesNotes(r: PlotRow, p: PlotPatch, now: string)
    ensures PlotAgreesAt(r, p, now, "notes")
  {
    PlotStatementAt(p, now, 9);
  }

  /** The statement leaves in the k-th updatable column the k-th field's value, when that field is supplied. */
  lemma PlotStatementAt(p: PlotPatch, now: string, k: nat)
    requires k < |PLOT_UPDATE_COLUMNS|
    ensures ValueAfter(PlotAssignments(p, now), PLOT_UPDATE_COLUMNS[k], now) == PlotFields(p)[k].value
  {
    PlotFieldsColumns(p);
    ValueAfterFields(PlotFields(p), [Bind("updated_at", SqlText(now))], k, now);
  }

  /** The statement assigns no column outside the updatable ones, except the update time. */
  lemma PlotStatementOther(p: PlotPatch, now: string, column: string)
    requires column !in PLOT_UPDATE_COLUMNS
    ensures ValueAfter(PlotAssignments(p, now), column, now) == (if column == "updated_at" then Some(SqlText(now)) else None)
  {
    var fields := PlotFields(p);
    ValueAfterAppend(Supplied(fields), [Bind("updated_at", SqlText(now))], column, now);
    ValueAfterSupplied(fields, column, now);
    PlotFieldsColumns(p);
    forall i | 0 <= i < |fields| ensures fields[i].column != column {
      assert fields[i].column == PLOT_UPDATE_COLUMNS[i];
    }
    LastValueAbsent(fields, column);
  }

  lemma PlotUpdateAgreesOther(r: PlotRow, p: PlotPatch, now: string, column: string)
    requires column !in PLOT_UPDATE_COLUMNS
    ensures PlotAgreesAt(r, p, now, column)
  {
    PlotStatementOther(p, now, column);
    var after := ApplyPlotPatch(r, p, now);
    assert after.id == r.id && after.createdAt == r.createdAt;
    if column != "updated_at" {
      PlotColumnOther(after, r, column);
    }
  }

  /** Outside the columns an update sets, a row's columns are unchanged when these fields are. */
  lemma PlotColumnOther(a: PlotRow, b: PlotRow, column: string)
    requires column !in PLOT_UPDATE_COLUMNS && column != "updated_at"
    requires a.id == b.id && a.createdAt == b.createdAt
    ensures PlotColumn(a, column) == PlotColumn(b, column)
  {
  }

  /** The columns the update may set from supplied fields, each once. */
  const PLOT_UPDATE_COLUMNS: seq<string> :=
    ["number", "name", "area", "current_cycle", "planting_date", "last_harvest_date", "status", "coordinates", "soil_type", "notes"]

  lemma PlotFieldsColumns(p: PlotPatch)
    ensures FieldColumns(PlotFields(p)) == PLOT_UPDATE_COLUMNS
    ensures Seqs.NoDuplicates(PLOT_UPDATE_COLUMNS)
  {
  }

  /** An update that is not refused keeps plot numbers unique. */
  lemma UpdatePlotKeepsNumbersUnique(rows: seq<PlotRow>, id: string, p: PlotPatch, now: string)
    requires UniqueNumbers(rows) && UniqueIds(rows)
    requires !ViolatesUniqueNumber(rows, id, p)
    ensures UniqueNumbers(UpdateRows(rows, id, p, now))
  {
    var after := UpdateRows(rows, id, p, now);
    forall i, j | 0 <= i < j < |after| ensures after[i].number != after[j].number {
      if p.number.Some? && rows[i].id == id {
        assert rows[j].id != id;
      } else if p.number.Some? && rows[j].id == id {
        assert rows[i].id != id;
      }
    }
  }

  function IdIsNot(id: string): PlotRow -> bool
  {
    (r: PlotRow) => r.id != id
  }

  /** `deletePlot`: removes the row with that id and nothing else; category links are not touched. */
  method DeletePlot(db: Database, id: string)
    modifies db`plots
    ensures db.plots == Seqs.Filter(old(db.plots), IdIsNot(id))
    ensures forall i :: 0 <= i < |db.plots| ==> db.plots[i].id != id
    ensures forall i :: 0 <= i < |old(db.plots)| && old(db.plots)[i].id != id ==> old(db.plots)[i] in db.plots
    ensures db.plotCategories == old(db.plotCategories)
  {
    db.plots := Seqs.Filter(db.plots, IdIsNot(id));
    assert forall i :: 0 <= i < |old(db.plots)| && old(db.plots)[i].id != id ==> IdIsNot(id)(old(db.plots)[i]);
  }
}
