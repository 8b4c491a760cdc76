/**
 * The reference table of crop cycles (0 = new planting, 1..5 = first to
 * fifth cut) with expected productivity in t/ha and standard revenue and
 * costs per hectare, and its lookups with their fallbacks for unknown cycles.
 */
module CycleCategoriesData {

  import opened Wrappers
  import Seqs
  import Strings

  /** One row of the reference table. */
  datatype CycleCategory = CycleCategory(
    cycle: int,
    name: string,
    expectedProductivity: real,
    standardRevenue: real,
    standardCosts: real)

  const CYCLE_CATEGORIES: seq<CycleCategory> := [
    CycleCategory(0, "Plantio Novo", 0.0, 0.0, 365.38),
    CycleCategory(1, "Primeiro Corte", 110.0, 19774.02, 1984.43),
    CycleCategory(2, "Segundo Corte", 100.0, 17976.38, 1759.43),
    CycleCategory(3, "Terceiro Corte", 90.0, 16178.75, 1674.44),
    CycleCategory(4, "Quarto Corte", 85.0, 15279.93, 3734.20),
    CycleCategory(5, "Quinto Corte", 80.0, 14381.11, 0.0)
  ]

  /** The rows the database schema seeds into `cycle_categories`, column by column. */
  const SEED_ROWS: seq<(int, string, real, real, real)> := [
    (0, "Plantio Novo", 0.0, 0.0, 365.38),
    (1, "Primeiro Corte", 110.0, 19774.02, 1984.43),
    (2, "Segundo Corte", 100.0, 17976.38, 1759.43),
    (3, "Terceiro Corte", 90.0, 16178.75, 1674.44),
    (4, "Quarto Corte", 85.0, 15279.93, 3734.20),
    (5, "Quinto Corte", 80.0, 14381.11, 0.0)
  ]

  function HasCycle(cycle: int): CycleCategory -> bool
  {
    (c: CycleCategory) => c.cycle == cycle
  }

  /** The row of a cycle, if the table has one (`find`). */
  function FindCycle(cycle: int): (r: Option<CycleCategory>)
    ensures 0 <= cycle < 6 ==> r == Some(CYCLE_CATEGORIES[cycle])
    ensures !(0 <= cycle < 6) ==> r == None
  {
    TableShape();
    if 0 <= cycle < 6 then
      Seqs.FindIsFirst(CYCLE_CATEGORIES, HasCycle(cycle), cycle);
      Seqs.Find(CYCLE_CATEGORIES, HasCycle(cycle))
    else
      Seqs.Find(CYCLE_CATEGORIES, HasCycle(cycle))
  }

  /** Six rows, the row at index i being cycle i, so cycles ascend with no duplicates. */
  lemma TableShape()
    ensures |CYCLE_CATEGORIES| == 6
    ensures forall i :: 0 <= i < 6 ==> CYCLE_CATEGORIES[i].cycle == i
    ensures forall i, j :: 0 <= i < j < 6 ==> CYCLE_CATEGORIES[i].cycle < CYCLE_CATEGORIES[j].cycle
  {
  }

  /** The table agrees, row by row, with the seeded database rows. */
  lemma TableMatchesSeed()
    ensures |SEED_ROWS| == |CYCLE_CATEGORIES|
    ensures forall i :: 0 <= i < |SEED_ROWS| ==>
      SEED_ROWS[i] == (CYCLE_CATEGORIES[i].cycle, CYCLE_CATEGORIES[i].name, CYCLE_CATEGORIES[i].expectedProductivity,
                       CYCLE_CATEGORIES[i].standardRevenue, CYCLE_CATEGORIES[i].standardCosts)
  {
  }

  /** The cycle's name, or "Ciclo n" for a cycle outside the table. */
  function GetCycleNameById(cycle: int): (name: string)
    ensures 0 <= cycle < 6 ==> name == CYCLE_CATEGORIES[cycle].name
    ensures !(0 <= cycle < 6) ==> name == "Ciclo " + Strings.IntToString(cycle)
  {
    match FindCycle(cycle)
    case Some(c) => c.name
    case None => "Ciclo " + Strings.IntToString(cycle)
  }

  /** Expected productivity in t/ha; 0 for a cycle outside the table. */
  function GetExpectedProductivity(cycle: int): (r: real)
    ensures 0 <= cycle < 6 ==> r == CYCLE_CATEGORIES[cycle].expectedProductivity
    ensures !(0 <= cycle < 6) ==> r == 0.0
  {
    match FindCycle(cycle)
    case Some(c) => c.expectedProductivity
    case None => 0.0
  }

  /** Standard revenue per hectare; 0 for a cycle outside the table. */
  function GetStandardRevenue(cycle: int): (r: real)
    ensures 0 <= cycle < 6 ==> r == CYCLE_CATEGORIES[cycle].standardRevenue
    ensures !(0 <= cycle < 6) ==> r == 0.0
  {
    match FindCycle(cycle)
    case Some(c) => c.standardRevenue
    case None => 0.0
  }

  /** Standard costs per hectare; 0 for a cycle outside the table. */
  function GetStandardCosts(cycle: int): (r: real)
    ensures 0 <= cycle < 6 ==> r == CYCLE_CATEGORIES[cycle].standardCosts
    ensures !(0 <= cycle < 6) ==> r == 0.0
  {
    match FindCycle(cycle)
    case Some(c) => c.standardCosts
    case None => 0.0
  }

  /** Productivity falls from the first cut on (110, 100, 90, 85, 80), and every figure is non-negative. */
  lemma ProductivityDeclines(c1: int, c2: int)
    requires 1 <= c1 <= c2
    ensures GetExpectedProductivity(c2) <= GetExpectedProductivity(c1)
    ensures GetExpectedProductivity(c1) >= 0.0 && GetStandardRevenue(c1) >= 0.0 && GetStandardCosts(c1) >= 0.0
  {
    ProductivityValues();
    FiguresNonNegative(c1);
    if c2 < 6 {
      assert c1 in {1, 2, 3, 4, 5} && c2 in {1, 2, 3, 4, 5};
    }
  }

  /** No figure of the table, nor a fallback, is negative. */
  lemma FiguresNonNegative(cycle: int)
    ensures GetExpectedProductivity(cycle) >= 0.0 && GetStandardRevenue(cycle) >= 0.0 && GetStandardCosts(cycle) >= 0.0
  {
    if 0 <= cycle < 6 {
      var c := CYCLE_CATEGORIES[cycle];
      assert c.expectedProductivity >= 0.0 && c.standardRevenue >= 0.0 && c.standardCosts >= 0.0;
    }
  }

  /** The productivity of each cycle of the table. */
  lemma ProductivityValues()
    ensures GetExpectedProductivity(0) == 0.0
    ensures GetExpectedProductivity(1) == 110.0
    ensures GetExpectedProductivity(2) == 100.0
    ensures GetExpectedProductivity(3) == 90.0
    ensures GetExpectedProductivity(4) == 85.0
    ensures GetExpectedProductivity(5) == 80.0
  {
    var t := CYCLE_CATEGORIES;
    assert t[1].expectedProductivity == 110.0 && t[2].expectedProductivity == 100.0;
    assert t[3].expectedProductivity == 90.0 && t[4].expectedProductivity == 85.0;
    assert t[5].expectedProductivity == 80.0;
  }
}
