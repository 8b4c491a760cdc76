/**
 * The category tables: `categories`, the plot links in `plot_categories`
 * (active, or kept as history), the soil preparations in
 * `category_soil_preparations`, and the configuration snapshots in
 * `category_history`. Creating, reading with the linked plots and soil
 * preparations, listing, partially updating, deleting, reassigning plots
 * and soil preparations, and saving and reading history.
 */
module CategoryRepository {

  import opened Wrappers
  import opened Entities
  import opened Sql
  import opened Tables
  import Seqs
  import Sorting
  import Strings

  // ---------------------------------------------------------------- create

  /** What `create` receives: a category without id, plots and soil preparations. */
  datatype NewCategory = NewCategory(
    cycle: int,
    name: string,
    expectedProductivity: real,
    standardRevenue: real,
    standardCosts: real,
    parentCategoryId: Option<string>)

  /** The row `create` inserts: an empty parent id is stored as NULL; `updated_at` is the insertion time. */
  function NewCategoryRow(x: NewCategory, id: string, now: string): CategoryRow
  {
    CategoryRow(id, x.cycle, x.name, x.expectedProductivity, x.standardRevenue, x.standardCosts, NonEmpty(x.parentCategoryId), now)
  }

  /** `create`: appends one row; `id` and `now` are the generated id and the clock. */
  method CreateCategory(db: Database, x: NewCategory, id: string, now: string) returns (newId: string)
    modifies db`categories
    ensures newId == id
    ensures db.categories == old(db.categories) + [NewCategoryRow(x, id, now)]
  {
    db.categories := db.categories + [NewCategoryRow(x, id, now)];
    newId := id;
  }

  // ---------------------------------------------------------------- read

  function IdIs(id: string): CategoryRow -> bool
  {
    (r: CategoryRow) => r.id == id
  }

  function PlotIdIs(id: string): PlotRow -> bool
  {
    (r: PlotRow) => r.id == id
  }

  function PrepIdIs(id: string): SoilPrepRow -> bool
  {
    (r: SoilPrepRow) => r.id == id
  }

  /** Some link in `links` ties plot `plotId` actively to category `c`. */
  predicate ActiveLink(links: seq<PlotLinkRow>, plotId: string, c: string)
  {
    exists i :: 0 <= i < |links| && links[i].isActive && links[i].categoryId == c && links[i].plotId == plotId
  }

  /** Some row of `prepLinks` ties soil preparation `prepId` to category `c`. */
  predicate PrepLink(prepLinks: seq<CategoryPrepRow>, prepId: string, c: string)
  {
    exists i :: 0 <= i < |prepLinks| && prepLinks[i].categoryId == c && prepLinks[i].soilPreparationId == prepId
  }

  /**
   * `SELECT p.* FROM plots p INNER JOIN plot_categories pc ON p.id = pc.plot_id
   * WHERE pc.category_id = ? AND pc.is_active = 1`: for each active link of
   * the category, in link order, the plot rows with the linked id.
   */
  function JoinedPlots(plots: seq<PlotRow>, links: seq<PlotLinkRow>, c: string): (r: seq<PlotRow>)
    ensures forall k :: 0 <= k < |r| ==> r[k] in plots && ActiveLink(links, r[k].id, c)
    ensures forall j :: 0 <= j < |plots| && ActiveLink(links, plots[j].id, c) ==> plots[j] in r
  {
    if |links| == 0 then []
    else
      var prev := JoinedPlots(plots, links[..|links| - 1], c);
      JoinedPlotsStep(plots, links, c, prev);
      prev + LinkJoin(plots, links[|links| - 1], c)
  }

  /** The plot rows one link contributes to the join: none unless it is an active link of `c`. */
  function LinkJoin(plots: seq<PlotRow>, l: PlotLinkRow, c: string): seq<PlotRow>
  {
    if l.isActive && l.categoryId == c then Seqs.Filter(plots, PlotIdIs(l.plotId)) else []
  }

  /** Joining one more link keeps the join sound and complete. */
  lemma JoinedPlotsStep(plots: seq<PlotRow>, links: seq<PlotLinkRow>, c: string, prev: seq<PlotRow>)
    requires |links| > 0
    requires forall k :: 0 <= k < |prev| ==> prev[k] in plots && ActiveLink(links[..|links| - 1], prev[k].id, c)
    requires forall j :: 0 <= j < |plots| && ActiveLink(links[..|links| - 1], plots[j].id, c) ==> plots[j] in prev
    ensures var r := prev + LinkJoin(plots, links[|links| - 1], c);
      forall k :: 0 <= k < |r| ==> r[k] in plots && ActiveLink(links, r[k].id, c)
    ensures var r := prev + LinkJoin(plots, links[|links| - 1], c);
      forall j :: 0 <= j < |plots| && ActiveLink(links, plots[j].id, c) ==> plots[j] in r
  {
    var front := links[..|links| - 1];
    var l := links[|links| - 1];
    var joined := LinkJoin(plots, l, c);
    var r := prev + joined;
    forall k | 0 <= k < |r| ensures r[k] in plots && ActiveLink(links, r[k].id, c) {
      if k < |prev| {
        assert r[k] == prev[k] && ActiveLink(front, prev[k].id, c);
        var i :| 0 <= i < |front| && front[i].isActive && front[i].categoryId == c && front[i].plotId == r[k].id;
        assert links[i] == front[i];
      } else {
        assert r[k] == joined[k - |prev|];
        assert links[|links| - 1] == l;
      }
    }
    forall j | 0 <= j < |plots| && ActiveLink(links, plots[j].id, c) ensures plots[j] in r {
      var i :| 0 <= i < |links| && links[i].isActive && links[i].categoryId == c && links[i].plotId == plots[j].id;
      if i < |front| {
        assert front[i] == links[i];
        assert ActiveLink(front, plots[j].id, c);
      } else {
        assert PlotIdIs(l.plotId)(plots[j]);
        assert plots[j] in joined;
      }
    }
  }

  /**
   * `SELECT sp.* FROM soil_preparations sp INNER JOIN category_soil_preparations csp
   * ON sp.id = csp.soil_preparation_id WHERE csp.category_id = ?`: for each link
   * of the category, in link order, the soil preparations with the linked id.
   */
  function JoinedPreparations(preps: seq<SoilPrepRow>, prepLinks: seq<CategoryPrepRow>, c: string): (r: seq<SoilPrepRow>)
    ensures forall k :: 0 <= k < |r| ==> r[k] in preps && PrepLink(prepLinks, r[k].id, c)
    ensures forall j :: 0 <= j < |preps| && PrepLink(prepLinks, preps[j].id, c) ==> preps[j] in r
  {
    if |prepLinks| == 0 then []
    else
      var prev := JoinedPreparations(preps, prepLinks[..|prepLinks| - 1], c);
      JoinedPreparationsStep(preps, prepLinks, c, prev);
      prev + PrepLinkJoin(preps, prepLinks[|prepLinks| - 1], c)
  }

  /** The soil preparations one link contributes to the join: none unless it belongs to `c`. */
  function PrepLinkJoin(preps: seq<SoilPrepRow>, l: CategoryPrepRow, c: string): seq<SoilPrepRow>
  {
    if l.categoryId == c then Seqs.Filter(preps, PrepIdIs(l.soilPreparationId)) else []
  }

  /** Joining one more link keeps the join sound and complete. */
  lemma JoinedPreparationsStep(preps: seq<SoilPrepRow>, prepLinks: seq<CategoryPrepRow>, c: string, prev: seq<SoilPrepRow>)
    requires |prepLinks| > 0
    requires forall k :: 0 <= k < |prev| ==> prev[k] in preps && PrepLink(prepLinks[..|prepLinks| - 1], prev[k].id, c)
    requires forall j :: 0 <= j < |preps| && PrepLink(prepLinks[..|prepLinks| - 1], preps[j].id, c) ==> preps[j] in prev
    ensures var r := prev + PrepLinkJoin(preps, prepLinks[|prepLinks| - 1], c);
      forall k :: 0 <= k < |r| ==> r[k] in preps && PrepLink(prepLinks, r[k].id, c)
    ensures var r := prev + PrepLinkJoin(preps, prepLinks[|prepLinks| - 1], c);
      forall j :: 0 <= j < |preps| && PrepLink(prepLinks, preps[j].id, c) ==> preps[j] in r
  {
    var front := prepLinks[..|prepLinks| - 1];
    var l := prepLinks[|prepLinks| - 1];
    var joined := PrepLinkJoin(preps, l, c);
    var r := prev + joined;
    forall k | 0 <= k < |r| ensures r[k] in preps && PrepLink(prepLinks, r[k].id, c) {
      if k < |prev| {
        assert r[k] == prev[k] && PrepLink(front, prev[k].id, c);
        var i :| 0 <= i < |front| && front[i].categoryId == c && front[i].soilPreparationId == r[k].id;
        assert prepLinks[i] == front[i];
      } else {
        assert r[k] == joined[k - |prev|];
        assert prepLinks[|prepLinks| - 1] == l;
      }
    }
    forall j | 0 <= j < |preps| && PrepLink(prepLinks, preps[j].id, c) ensures preps[j] in r {
      var i :| 0 <= i < |prepLinks| && prepLinks[i].categoryId == c && prepLinks[i].soilPreparationId == preps[j].id;
      if i < |front| {
        assert front[i] == prepLinks[i];
        assert PrepLink(front, preps[j].id, c);
      } else {
        assert PrepIdIs(l.soilPreparationId)(preps[j]);
        assert preps[j] in joined;
      }
    }
  }

  /**
   * A plot row as `findById` maps it: the planting date is read as stored (no
   * fallback), an empty last-harvest date becomes undefined, and both
   * timestamps are always present.
   */
  function LinkedPlot(r: PlotRow): (p: Plot)
    ensures p.id == r.id && p.number == r.number && p.plantingDate == r.plantingDate
    ensures p.lastHarvestDate.None? <==> r.lastHarvestDate.None? || r.lastHarvestDate.value == ""
    ensures p.createdAt == Some(r.createdAt) && p.updatedAt == Some(r.updatedAt)
  {
    Plot(r.id, r.number, r.name, r.area, r.currentCycle, r.plantingDate, NonEmpty(r.lastHarvestDate),
      r.status, r.soilType, r.notes, Some(r.createdAt), Some(r.updatedAt))
  }

  /** A soil preparation row as `findById` maps it: its actions are not loaded. */
  function LinkedPreparation(r: SoilPrepRow): (s: SoilPreparation)
    ensures s.id == r.id && s.actions == [] && s.totalCost == r.totalCost
  {
    SoilPreparation(r.id, r.name, r.description, [], r.totalCost, r.estimatedDuration, r.createdAt, r.updatedAt)
  }

  /** The category a row reads as, with its actively linked plots and its soil preparations. */
  function Assemble(row: CategoryRow, plots: seq<PlotRow>, links: seq<PlotLinkRow>,
                    preps: seq<SoilPrepRow>, prepLinks: seq<CategoryPrepRow>): Category
  {
    Category(row.id, row.cycle, row.name, row.expectedProductivity, row.standardRevenue, row.standardCosts,
      Seqs.Map(JoinedPlots(plots, links, row.id), LinkedPlot),
      Seqs.Map(JoinedPreparations(preps, prepLinks, row.id), LinkedPreparation),
      row.parentCategoryId)
  }

  /** `p` is a plot row of `plots` that has an active link to category `c`. */
  predicate FromActiveLink(p: Plot, plots: seq<PlotRow>, links: seq<PlotLinkRow>, c: string)
  {
    exists j :: 0 <= j < |plots| && p == LinkedPlot(plots[j]) && ActiveLink(links, plots[j].id, c)
  }

  /** Each of `ps` is a plot row of `plots` that has an active link to category `c`. */
  predicate FromActiveLinks(ps: seq<Plot>, plots: seq<PlotRow>, links: seq<PlotLinkRow>, c: string)
  {
    forall k :: 0 <= k < |ps| ==> FromActiveLink(ps[k], plots, links, c)
  }

  /** Every plot row of `plots` with an active link to category `c` is among `ps`. */
  predicate HoldsActiveLinks(ps: seq<Plot>, plots: seq<PlotRow>, links: seq<PlotLinkRow>, c: string)
  {
    forall j :: 0 <= j < |plots| && ActiveLink(links, plots[j].id, c) ==> LinkedPlot(plots[j]) in ps
  }

  /**
   * The plots a category reads with are exactly the mapped plot rows that
   * have an active link to it: a plot with only inactive (historical) links,
   * or a link to a missing plot, contributes nothing.
   */
  lemma AssembledPlotsLinked(row: CategoryRow, plots: seq<PlotRow>, links: seq<PlotLinkRow>,
                             preps: seq<SoilPrepRow>, prepLinks: seq<CategoryPrepRow>)
    ensures FromActiveLinks(Assemble(row, plots, links, preps, prepLinks).plots, plots, links, row.id)
    ensures HoldsActiveLinks(Assemble(row, plots, links, preps, prepLinks).plots, plots, links, row.id)
  {
    var joined := JoinedPlots(plots, links, row.id);
    var mapped := Seqs.Map(joined, LinkedPlot);
    assert Assemble(row, plots, links, preps, prepLinks).plots == mapped;
    forall k | 0 <= k < |mapped|
      ensures FromActiveLink(mapped[k], plots, links, row.id)
    {
      assert joined[k] in plots;
      var j :| 0 <= j < |plots| && plots[j] == joined[k];
      assert mapped[k] == LinkedPlot(plots[j]);
    }
    assert FromActiveLinks(mapped, plots, links, row.id);
    forall j | 0 <= j < |plots| && ActiveLink(links, plots[j].id, row.id)
      ensures LinkedPlot(plots[j]) in mapped
    {
      assert plots[j] in joined;
      var k :| 0 <= k < |joined| && joined[k] == plots[j];
      assert mapped[k] == LinkedPlot(plots[j]);
    }
    assert HoldsActiveLinks(mapped, plots, links, row.id);
  }

  /** `s` is a soil preparation row of `preps` linked to category `c`. */
  predicate FromPrepLink(s: SoilPreparation, preps: seq<SoilPrepRow>, prepLinks: seq<CategoryPrepRow>, c: string)
  {
    exists j :: 0 <= j < |preps| && s == LinkedPreparation(preps[j]) && PrepLink(prepLinks, preps[j].id, c)
  }

  /** Each of `ss` is a soil preparation row of `preps` linked to category `c`. */
  predicate FromPrepLinks(ss: seq<SoilPreparation>, preps: seq<SoilPrepRow>, prepLinks: seq<CategoryPrepRow>, c: string)
  {
    forall k :: 0 <= k < |ss| ==> FromPrepLink(ss[k], preps, prepLinks, c)
  }

  /** Every soil preparation row of `preps` linked to category `c` is among `ss`. */
  predicate HoldsPrepLinks(ss: seq<SoilPreparation>, preps: seq<SoilPrepRow>, prepLinks: seq<CategoryPrepRow>, c: string)
  {
    forall j :: 0 <= j < |preps| && PrepLink(prepLinks, preps[j].id, c) ==> LinkedPreparation(preps[j]) in ss
  }

  /** The soil preparations a category reads with are exactly the rows linked to it. */
  lemma AssembledPreparationsLinked(row: CategoryRow, plots: seq<PlotRow>, links: seq<PlotLinkRow>,
                                    preps: seq<SoilPrepRow>, prepLinks: seq<CategoryPrepRow>)
    ensures FromPrepLinks(Assemble(row, plots, links, preps, prepLinks).soilPreparations, preps, prepLinks, row.id)
    ensures HoldsPrepLinks(Assemble(row, plots, links, preps, prepLinks).soilPreparations, preps, prepLinks, row.id)
  {
    var joined := JoinedPreparations(preps, prepLinks, row.id);
    var mapped := Seqs.Map(joined, LinkedPreparation);
    assert Assemble(row, plots, links, preps, prepLinks).soilPreparations == mapped;
    forall k | 0 <= k < |mapped|
      ensures FromPrepLink(mapped[k], preps, prepLinks, row.id)
    {
      assert joined[k] in preps;
      var j :| 0 <= j < |preps| && preps[j] == joined[k];
      assert mapped[k] == LinkedPreparation(preps[j]);
    }
    assert FromPrepLinks(mapped, preps, prepLinks, row.id);
    forall j | 0 <= j < |preps| && PrepLink(prepLinks, preps[j].id, row.id)
      ensures LinkedPreparation(preps[j]) in mapped
    {
      assert preps[j] in joined;
      var k :| 0 <= k < |joined| && joined[k] == preps[j];
      assert mapped[k] == LinkedPreparation(preps[j]);
    }
    assert HoldsPrepLinks(mapped, preps, prepLinks, row.id);
  }

  /** No link of category `c`: nothing to join. */
  lemma {:induction false} JoinedPlotsUnlinked(plots: seq<PlotRow>, links: seq<PlotLinkRow>, c: string)
    requires forall i :: 0 <= i < |links| ==> links[i].categoryId != c
    ensures JoinedPlots(plots, links, c) == []
  {
    if |links| > 0 {
      JoinedPlotsUnlinked(plots, links[..|links| - 1], c);
    }
  }

  lemma {:induction false} JoinedPreparationsUnlinked(preps: seq<SoilPrepRow>, prepLinks: seq<CategoryPrepRow>, c: string)
    requires forall i :: 0 <= i < |prepLinks| ==> prepLinks[i].categoryId != c
    ensures JoinedPreparations(preps, prepLinks, c) == []
  {
    if |prepLinks| > 0 {
      JoinedPreparationsUnlinked(preps, prepLinks[..|prepLinks| - 1], c);
    }
  }

  /**
   * `findById`: null when no row has the id; otherwise the first such row
   * with the plots actively linked to it and the soil preparations linked to it.
   */
  function FindById(categories: seq<CategoryRow>, plots: seq<PlotRow>, links: seq<PlotLinkRow>,
                    preps: seq<SoilPrepRow>, prepLinks: seq<CategoryPrepRow>, id: string): (r: Option<Category>)
    ensures r.None? <==> forall i :: 0 <= i < |categories| ==> categories[i].id != id
    ensures r.Some? ==> (exists i :: 0 <= i < |categories| && categories[i].id == id
                                && r.value == Assemble(categories[i], plots, links, preps, prepLinks))
  {
    match Seqs.Find(categories, IdIs(id))
    case None =>
      assert forall i :: 0 <= i < |categories| ==> !IdIs(id)(categories[i]);
      None
    case Some(row) =>
      Some(Assemble(row, plots, links, preps, prepLinks))
  }

  /** Each row read as `findById` reads it, in the order given. */
  function AssembleAll(rows: seq<CategoryRow>, plots: seq<PlotRow>, links: seq<PlotLinkRow>,
                       preps: seq<SoilPrepRow>, prepLinks: seq<CategoryPrepRow>): (r: seq<Category>)
    ensures |r| == |rows|
    ensures forall i :: 0 <= i < |rows| ==> r[i] == Assemble(rows[i], plots, links, preps, prepLinks)
  {
    if |rows| == 0 then []
    else AssembleAll(rows[..|rows| - 1], plots, links, preps, prepLinks) + [Assemble(rows[|rows| - 1], plots, links, preps, prepLinks)]
  }

  function CycleKey(r: CategoryRow): int { r.cycle }

  function NameKey(r: CategoryRow): string { r.name }

  /** The category rows in `ORDER BY cycle, name` order. */
  function SortedRows(categories: seq<CategoryRow>): (r: seq<CategoryRow>)
    ensures |r| == |categories|
    ensures forall i, j :: 0 <= i < j < |r| ==>
      (r[i].cycle < r[j].cycle || (r[i].cycle == r[j].cycle && Strings.StrLe(r[i].name, r[j].name)))
    ensures forall i :: 0 <= i < |categories| ==> categories[i] in r
    ensures multiset(r) == multiset(categories)
    ensures forall c, n :: Seqs.Filter(r, Sorting.KeyAndTextAre(CycleKey, NameKey, c, n))
                          == Seqs.Filter(categories, Sorting.KeyAndTextAre(CycleKey, NameKey, c, n))
  {
    Sorting.SortByKeyThenText(categories, CycleKey, NameKey);
    Sorting.SortStableByKeyThenText(categories, CycleKey, NameKey);
    Sorting.SortMembers(categories, Sorting.ByKeyThenText(CycleKey, NameKey));
    assert var r := Sorting.Sort(categories, Sorting.ByKeyThenText(CycleKey, NameKey));
      forall i, j :: 0 <= i < j < |r| ==>
        (r[i].cycle < r[j].cycle || (r[i].cycle == r[j].cycle && Strings.StrLe(r[i].name, r[j].name)));
    Sorting.Sort(categories, Sorting.ByKeyThenText(CycleKey, NameKey))
  }

  /**
   * `findAll`: the rows in `ORDER BY cycle, name` order, each read as
   * `findById` reads it.
   */
  function FindAll(categories: seq<CategoryRow>, plots: seq<PlotRow>, links: seq<PlotLinkRow>,
                   preps: seq<SoilPrepRow>, prepLinks: seq<CategoryPrepRow>): (r: seq<Category>)
    ensures |r| == |categories|
    ensures forall i, j :: 0 <= i < j < |r| ==>
      (r[i].cycle < r[j].cycle || (r[i].cycle == r[j].cycle && Strings.StrLe(r[i].name, r[j].name)))
    ensures forall i :: 0 <= i < |categories| ==> Assemble(categories[i], plots, links, preps, prepLinks) in r
  {
    var sorted := SortedRows(categories);
    var r := AssembleAll(sorted, plots, links, preps, prepLinks);
    assert forall i :: 0 <= i < |r| ==> r[i].cycle == sorted[i].cycle && r[i].name == sorted[i].name;
    assert forall i :: 0 <= i < |categories| ==> exists k :: 0 <= k < |sorted| && sorted[k] == categories[i];
    r
  }

  /** With distinct ids, each category `findAll` lists is what `findById` returns for its id. */
  lemma FindAllAgreesWithFindById(categories: seq<CategoryRow>, plots: seq<PlotRow>, links: seq<PlotLinkRow>,
                                  preps: seq<SoilPrepRow>, prepLinks: seq<CategoryPrepRow>, i: nat)
    requires i < |categories|
    requires forall a, b :: 0 <= a < b < |categories| ==> categories[a].id != categories[b].id
    ensures FindById(categories, plots, links, preps, prepLinks, categories[i].id)
      == Some(Assemble(categories[i], plots, links, preps, prepLinks))
  {
    var id := categories[i].id;
    Seqs.FindIsFirst(categories, IdIs(id), i);
  }

  /** A freshly created category reads back with the values it was given and no plots or soil preparations. */
  lemma CreatedCategoryFound(categories: seq<CategoryRow>, plots: seq<PlotRow>, links: seq<PlotLinkRow>,
                             preps: seq<SoilPrepRow>, prepLinks: seq<CategoryPrepRow>,
                             x: NewCategory, id: string, now: string)
    requires forall i :: 0 <= i < |categories| ==> categories[i].id != id
    requires forall i :: 0 <= i < |links| ==> links[i].categoryId != id
    requires forall i :: 0 <= i < |prepLinks| ==> prepLinks[i].categoryId != id
    ensures FindById(categories + [NewCategoryRow(x, id, now)], plots, links, preps, prepLinks, id)
      == Some(Category(id, x.cycle, x.name, x.expectedProductivity, x.standardRevenue, x.standardCosts,
                       [], [], NonEmpty(x.parentCategoryId)))
  {
    var all := categories + [NewCategoryRow(x, id, now)];
    Seqs.FindIsFirst(all, IdIs(id), |categories|);
    JoinedPlotsUnlinked(plots, links, id);
    JoinedPreparationsUnlinked(preps, prepLinks, id);
  }

  // ---------------------------------------------------------------- delete

  function CategoryIdIsNot(id: string): CategoryRow -> bool
  {
    (r: CategoryRow) => r.id != id
  }

  function LinkNotOf(c: string): PlotLinkRow -> bool
  {
    (l: PlotLinkRow) => l.categoryId != c
  }

  function PrepLinkNotOf(c: string): CategoryPrepRow -> bool
  {
    (l: CategoryPrepRow) => l.categoryId != c
  }

  /**
   * `delete`, in one transaction: the category's plot links (active and
   * historical), its soil-preparation links, and the category row itself.
   */
  method DeleteCategory(db: Database, id: string)
    modifies db`plotCategories, db`categorySoilPreparations, db`categories
    ensures db.plotCategories == Seqs.Filter(old(db.plotCategories), LinkNotOf(id))
    ensures db.categorySoilPreparations == Seqs.Filter(old(db.categorySoilPreparations), PrepLinkNotOf(id))
    ensures db.categories == Seqs.Filter(old(db.categories), CategoryIdIsNot(id))
  {
    db.plotCategories := Seqs.Filter(db.plotCategories, LinkNotOf(id));
    db.categorySoilPreparations := Seqs.Filter(db.categorySoilPreparations, PrepLinkNotOf(id));
    db.categories := Seqs.Filter(db.categories, CategoryIdIsNot(id));
  }

  /** After `delete` the category is not found and no plot is actively linked to it. */
  lemma DeletedCategoryGone(categories: seq<CategoryRow>, plots: seq<PlotRow>, links: seq<PlotLinkRow>,
                            preps: seq<SoilPrepRow>, prepLinks: seq<CategoryPrepRow>, id: string)
    ensures FindById(Seqs.Filter(categories, CategoryIdIsNot(id)), plots, Seqs.Filter(links, LinkNotOf(id)),
                     preps, Seqs.Filter(prepLinks, PrepLinkNotOf(id)), id).None?
    ensures forall pid :: !ActiveLink(Seqs.Filter(links, LinkNotOf(id)), pid, id)
  {
    var kept := Seqs.Filter(categories, CategoryIdIsNot(id));
    assert forall i :: 0 <= i < |kept| ==> CategoryIdIsNot(id)(kept[i]);
    var keptLinks := Seqs.Filter(links, LinkNotOf(id));
    assert forall i :: 0 <= i < |keptLinks| ==> LinkNotOf(id)(keptLinks[i]);
  }

  // ---------------------------------------------------------------- assign plots

  /** `UPDATE plot_categories SET is_active = 0 WHERE category_id = ?` on one link. */
  function Deactivate(c: string): PlotLinkRow -> PlotLinkRow
  {
    (l: PlotLinkRow) => if l.categoryId == c then l.(isActive := false) else l
  }

  /** One active link per plot id, with the generated link ids, in the order given. */
  function NewLinks(c: string, plotIds: seq<string>, linkIds: seq<string>): (r: seq<PlotLinkRow>)
    requires |linkIds| == |plotIds|
    ensures |r| == |plotIds|
    ensures forall k :: 0 <= k < |r| ==> r[k] == PlotLinkRow(linkIds[k], plotIds[k], c, true)
  {
    seq(|plotIds|, k requires 0 <= k < |plotIds| => PlotLinkRow(linkIds[k], plotIds[k], c, true))
  }

  /** The `plot_categories` table after `assignPlots(c, plotIds)`. */
  function AssignPlotsRows(links: seq<PlotLinkRow>, c: string, plotIds: seq<string>, linkIds: seq<string>): seq<PlotLinkRow>
    requires |linkIds| == |plotIds|
  {
    Seqs.Map(links, Deactivate(c)) + NewLinks(c, plotIds, linkIds)
  }

  /**
   * `assignPlots`, in one transaction: every link of the category is
   * deactivated (kept as history), then one active link is inserted per
   * plot id; `linkIds` are the ids generated for those links.
   */
  method AssignPlots(db: Database, c: string, plotIds: seq<string>, linkIds: seq<string>)
    requires |linkIds| == |plotIds|
    modifies db`plotCategories
    ensures db.plotCategories == AssignPlotsRows(old(db.plotCategories), c, plotIds, linkIds)
  {
    db.plotCategories := Seqs.Map(db.plotCategories, Deactivate(c));
    var k := 0;
    while k < |plotIds|
      invariant 0 <= k <= |plotIds|
      invariant db.plotCategories == Seqs.Map(old(db.plotCategories), Deactivate(c)) + NewLinks(c, plotIds[..k], linkIds[..k])
    {
      assert NewLinks(c, plotIds[..k + 1], linkIds[..k + 1]) == NewLinks(c, plotIds[..k], linkIds[..k]) + [PlotLinkRow(linkIds[k], plotIds[k], c, true)];
      db.plotCategories := db.plotCategories + [PlotLinkRow(linkIds[k], plotIds[k], c, true)];
      k := k + 1;
    }
    assert plotIds[..k] == plotIds && linkIds[..k] == linkIds;
  }

  function ActiveIn(c: string): PlotLinkRow -> bool
  {
    (l: PlotLinkRow) => l.isActive && l.categoryId == c
  }

  function LinkPlotId(l: PlotLinkRow): string { l.plotId }

  /** The plot ids actively linked to category `c`, in link order. */
  function ActivePlotIds(links: seq<PlotLinkRow>, c: string): seq<string>
  {
    Seqs.Map(Seqs.Filter(links, ActiveIn(c)), LinkPlotId)
  }

  /**
   * After `assignPlots(c, plotIds)` the plots actively linked to `c` are
   * exactly `plotIds`, in that order, whatever was linked before; the old
   * links stay in the table, inactive.
   */
  lemma AssignPlotsActiveIds(links: seq<PlotLinkRow>, c: string, plotIds: seq<string>, linkIds: seq<string>)
    requires |linkIds| == |plotIds|
    ensures ActivePlotIds(AssignPlotsRows(links, c, plotIds, linkIds), c) == plotIds
    ensures |AssignPlotsRows(links, c, plotIds, linkIds)| == |links| + |plotIds|
    ensures forall i :: 0 <= i < |links| && links[i].categoryId == c ==>
      links[i].(isActive := false) in AssignPlotsRows(links, c, plotIds, linkIds)
  {
    var old_ := Seqs.Map(links, Deactivate(c));
    var fresh_ := NewLinks(c, plotIds, linkIds);
    Seqs.FilterAppend(old_, fresh_, ActiveIn(c));
    Seqs.FilterNone(old_, ActiveIn(c));
    Seqs.FilterAll(fresh_, ActiveIn(c));
    assert Seqs.Filter(old_ + fresh_, ActiveIn(c)) == fresh_;
    var rows := AssignPlotsRows(links, c, plotIds, linkIds);
    assert forall i :: 0 <= i < |links| ==> rows[i] == old_[i];
  }

  /** The links of a category other than `c` are untouched by `assignPlots(c, …)`. */
  lemma AssignPlotsKeepsOtherCategories(links: seq<PlotLinkRow>, c: string, plotIds: seq<string>, linkIds: seq<string>, d: string)
    requires |linkIds| == |plotIds|
    requires d != c
    ensures Seqs.Filter(AssignPlotsRows(links, c, plotIds, linkIds), LinkOf(d)) == Seqs.Filter(links, LinkOf(d))
  {
    var old_ := Seqs.Map(links, Deactivate(c));
    var fresh_ := NewLinks(c, plotIds, linkIds);
    Seqs.FilterAppend(old_, fresh_, LinkOf(d));
    Seqs.FilterMapFixed(links, Deactivate(c), LinkOf(d));
    Seqs.FilterNone(fresh_, LinkOf(d));
  }

  function LinkOf(d: string): PlotLinkRow -> bool
  {
    (l: PlotLinkRow) => l.categoryId == d
  }

  /** The category's cycle, looked up by id; None for an unknown category. */
  function CategoryCycle(categories: seq<CategoryRow>, id: string): (r: Option<int>)
    ensures r.Some? ==> exists i :: 0 <= i < |categories| && categories[i].id == id && categories[i].cycle == r.value
  {
    match Seqs.Find(categories, IdIs(id))
    case None => None
    case Some(row) => Some(row.cycle)
  }

  /**
   * The rule the category screens rely on: a plot is actively linked to at
   * most one category of any given cycle.
   */
  predicate OneActivePerCycle(links: seq<PlotLinkRow>, categories: seq<CategoryRow>)
  {
    forall i, j :: 0 <= i < |links| && 0 <= j < |links| && links[i].isActive && links[j].isActive
      && links[i].plotId == links[j].plotId && links[i].categoryId != links[j].categoryId
      ==> CategoryCycle(categories, links[i].categoryId) != CategoryCycle(categories, links[j].categoryId)
  }

  /**
   * As written, `assignPlots` does not release a plot from another category
   * of the same cycle: a plot active in category "a" stays active there when
   * it is assigned to category "b" of the same cycle.
   */
  lemma AssignPlotsBreaksOneActivePerCycle()
    ensures var cats := [CategoryRow("a", 1, "A", 0.0, 0.0, 0.0, None, ""), CategoryRow("b", 1, "B", 0.0, 0.0, 0.0, None, "")];
      var links := [PlotLinkRow("l1", "p", "a", true)];
      OneActivePerCycle(links, cats) && !OneActivePerCycle(AssignPlotsRows(links, "b", ["p"], ["l2"]), cats)
  {
    var cats := [CategoryRow("a", 1, "A", 0.0, 0.0, 0.0, None, ""), CategoryRow("b", 1, "B", 0.0, 0.0, 0.0, None, "")];
    var links := [PlotLinkRow("l1", "p", "a", true)];
    var after := AssignPlotsRows(links, "b", ["p"], ["l2"]);
    assert after[0] == PlotLinkRow("l1", "p", "a", true);
    assert after[1] == PlotLinkRow("l2", "p", "b", true);
    Seqs.FindIsFirst(cats, IdIs("a"), 0);
    Seqs.FindIsFirst(cats, IdIs("b"), 1);
    assert CategoryCycle(cats, "a") == Some(1) == CategoryCycle(cats, "b");
  }

  /**
   * A link `assignPlots` should release: every link of `c`, and an active link
   * of one of the plots being assigned to another category of the same cycle.
   */
  function Release(categories: seq<CategoryRow>, c: string, plotIds: seq<string>): PlotLinkRow -> PlotLinkRow
  {
    (l: PlotLinkRow) =>
      if l.categoryId == c || (l.plotId in plotIds && CategoryCycle(categories, l.categoryId) == CategoryCycle(categories, c))
      then l.(isActive := false) else l
  }

  /**
   * The save of the category form with its "Mover" choice carried through: the
   * screen only edits its local selection and then calls `assignPlots` for the
   * category being saved, so nothing releases the plot's active link in its old
   * category of the same cycle. Here the same save releases that link too.
   */
  function AssignPlotsMovingRows(links: seq<PlotLinkRow>, categories: seq<CategoryRow>, c: string,
                                 plotIds: seq<string>, linkIds: seq<string>): seq<PlotLinkRow>
    requires |linkIds| == |plotIds|
  {
    Seqs.Map(links, Release(categories, c, plotIds)) + NewLinks(c, plotIds, linkIds)
  }

  /** The corrected assignment keeps every plot in at most one active category per cycle. */
  lemma AssignPlotsMovingKeepsOneActivePerCycle(links: seq<PlotLinkRow>, categories: seq<CategoryRow>, c: string,
                                                plotIds: seq<string>, linkIds: seq<string>)
    requires |linkIds| == |plotIds|
    requires OneActivePerCycle(links, categories)
    ensures OneActivePerCycle(AssignPlotsMovingRows(links, categories, c, plotIds, linkIds), categories)
  {
    var rows := AssignPlotsMovingRows(links, categories, c, plotIds, linkIds);
    var n := |links|;
    var release := Release(categories, c, plotIds);
    forall i, j | 0 <= i < |rows| && 0 <= j < |rows| && rows[i].isActive && rows[j].isActive
      && rows[i].plotId == rows[j].plotId && rows[i].categoryId != rows[j].categoryId
      ensures CategoryCycle(categories, rows[i].categoryId) != CategoryCycle(categories, rows[j].categoryId)
    {
      if i < n && j < n {
        assert rows[i] == release(links[i]) == links[i];
        assert rows[j] == release(links[j]) == links[j];
      } else if i < n {
        assert rows[j] == PlotLinkRow(linkIds[j - n], plotIds[j - n], c, true);
        assert rows[i] == release(links[i]) == links[i];
      } else if j < n {
        assert rows[i] == PlotLinkRow(linkIds[i - n], plotIds[i - n], c, true);
        assert rows[j] == release(links[j]) == links[j];
      } else {
        assert false;
      }
    }
  }

  /** The corrected assignment still leaves exactly `plotIds` active in `c`. */
  lemma AssignPlotsMovingActiveIds(links: seq<PlotLinkRow>, categories: seq<CategoryRow>, c: string,
                                   plotIds: seq<string>, linkIds: seq<string>)
    requires |linkIds| == |plotIds|
    ensures ActivePlotIds(AssignPlotsMovingRows(links, categories, c, plotIds, linkIds), c) == plotIds
  {
    var old_ := Seqs.Map(links, Release(categories, c, plotIds));
    var fresh_ := NewLinks(c, plotIds, linkIds);
    Seqs.FilterAppend(old_, fresh_, ActiveIn(c));
    Seqs.FilterNone(old_, ActiveIn(c));
    Seqs.FilterAll(fresh_, ActiveIn(c));
    assert Seqs.Filter(old_ + fresh_, ActiveIn(c)) == fresh_;
  }

  /**
   * Reading a category after `assignPlots(c, plotIds)` lists exactly the plot
   * rows whose id is one of `plotIds`.
   */
  lemma AssignedPlotsFound(categories: seq<CategoryRow>, plots: seq<PlotRow>, links: seq<PlotLinkRow>,
                           preps: seq<SoilPrepRow>, prepLinks: seq<CategoryPrepRow>,
                           c: string, plotIds: seq<string>, linkIds: seq<string>)
    requires |linkIds| == |plotIds|
    requires exists i :: 0 <= i < |categories| && categories[i].id == c
    ensures var r := FindById(categories, plots, AssignPlotsRows(links, c, plotIds, linkIds), preps, prepLinks, c);
      && r.Some?
      && (forall k :: 0 <= k < |r.value.plots| ==> r.value.plots[k].id in plotIds)
      && (forall j :: 0 <= j < |plots| && plots[j].id in plotIds ==> LinkedPlot(plots[j]) in r.value.plots)
  {
    var rows := AssignPlotsRows(links, c, plotIds, linkIds);
    var n := |links|;
    forall pid ensures ActiveLink(rows, pid, c) <==> pid in plotIds {
      if ActiveLink(rows, pid, c) {
        var i :| 0 <= i < |rows| && rows[i].isActive && rows[i].categoryId == c && rows[i].plotId == pid;
        if i < n {
          assert false;
        }
        assert rows[i] == PlotLinkRow(linkIds[i - n], plotIds[i - n], c, true);
      }
      if pid in plotIds {
        var k :| 0 <= k < |plotIds| && plotIds[k] == pid;
        assert rows[n + k] == PlotLinkRow(linkIds[k], plotIds[k], c, true);
      }
    }
  }

  // ---------------------------------------------------------------- assign soil preparations

  function PrepLinkOf(d: string): CategoryPrepRow -> bool
  {
    (l: CategoryPrepRow) => l.categoryId == d
  }

  /** One link per soil preparation id, with the generated row ids, in the order given. */
  function NewPrepLinks(c: string, prepIds: seq<string>, rowIds: seq<string>): (r: seq<CategoryPrepRow>)
    requires |rowIds| == |prepIds|
    ensures |r| == |prepIds|
    ensures forall k :: 0 <= k < |r| ==> r[k] == CategoryPrepRow(rowIds[k], c, prepIds[k])
  {
    seq(|prepIds|, k requires 0 <= k < |prepIds| => CategoryPrepRow(rowIds[k], c, prepIds[k]))
  }

  /** The `category_soil_preparations` table after `assignSoilPreparations(c, prepIds)`. */
  function AssignPreparationsRows(prepLinks: seq<CategoryPrepRow>, c: string, prepIds: seq<string>, rowIds: seq<string>): seq<CategoryPrepRow>
    requires |rowIds| == |prepIds|
  {
    Seqs.Filter(prepLinks, PrepLinkNotOf(c)) + NewPrepLinks(c, prepIds, rowIds)
  }

  /**
   * `assignSoilPreparations`, in one transaction: the category's links are
   * deleted, then one link is inserted per soil preparation id; `rowIds` are
   * the ids generated for those links.
   */
  method AssignSoilPreparations(db: Database, c: string, prepIds: seq<string>, rowIds: seq<string>)
    requires |rowIds| == |prepIds|
    modifies db`categorySoilPreparations
    ensures db.categorySoilPreparations == AssignPreparationsRows(old(db.categorySoilPreparations), c, prepIds, rowIds)
  {
    db.categorySoilPreparations := Seqs.Filter(db.categorySoilPreparations, PrepLinkNotOf(c));
    var k := 0;
    while k < |prepIds|
      invariant 0 <= k <= |prepIds|
      invariant db.categorySoilPreparations == Seqs.Filter(old(db.categorySoilPreparations), PrepLinkNotOf(c)) + NewPrepLinks(c, prepIds[..k], rowIds[..k])
    {
      assert NewPrepLinks(c, prepIds[..k + 1], rowIds[..k + 1]) == NewPrepLinks(c, prepIds[..k], rowIds[..k]) + [CategoryPrepRow(rowIds[k], c, prepIds[k])];
      db.categorySoilPreparations := db.categorySoilPreparations + [CategoryPrepRow(rowIds[k], c, prepIds[k])];
      k := k + 1;
    }
    assert prepIds[..k] == prepIds && rowIds[..k] == rowIds;
  }

  function PrepLinkPrepId(l: CategoryPrepRow): string { l.soilPreparationId }

  /** The soil preparation ids linked to category `c`, in link order. */
  function PreparationIds(prepLinks: seq<CategoryPrepRow>, c: string): seq<string>
  {
    Seqs.Map(Seqs.Filter(prepLinks, PrepLinkOf(c)), PrepLinkPrepId)
  }

  /**
   * After `assignSoilPreparations(c, prepIds)` the category's soil
   * preparations are exactly `prepIds`, in that order, and every other
   * category's links are as before.
   */
  lemma AssignPreparationsResult(prepLinks: seq<CategoryPrepRow>, c: string, prepIds: seq<string>, rowIds: seq<string>, d: string)
    requires |rowIds| == |prepIds|
    requires d != c
    ensures PreparationIds(AssignPreparationsRows(prepLinks, c, prepIds, rowIds), c) == prepIds
    ensures Seqs.Filter(AssignPreparationsRows(prepLinks, c, prepIds, rowIds), PrepLinkOf(d)) == Seqs.Filter(prepLinks, PrepLinkOf(d))
  {
    var kept := Seqs.Filter(prepLinks, PrepLinkNotOf(c));
    var fresh_ := NewPrepLinks(c, prepIds, rowIds);
    Seqs.FilterAppend(kept, fresh_, PrepLinkOf(c));
    assert forall i :: 0 <= i < |kept| ==> PrepLinkNotOf(c)(kept[i]);
    Seqs.FilterNone(kept, PrepLinkOf(c));
    Seqs.FilterAll(fresh_, PrepLinkOf(c));
    assert Seqs.Filter(kept + fresh_, PrepLinkOf(c)) == fresh_;
    Seqs.FilterAppend(kept, fresh_, PrepLinkOf(d));
    Seqs.FilterNone(fresh_, PrepLinkOf(d));
    Seqs.FilterFilter(prepLinks, PrepLinkNotOf(c), PrepLinkOf(d));
    Seqs.FilterEquivalent(prepLinks, Seqs.And(PrepLinkNotOf(c), PrepLinkOf(d)), PrepLinkOf(d));
  }

  // ---------------------------------------------------------------- history

  /** What `saveHistory` receives: a snapshot without id. */
  datatype NewHistory = NewHistory(
    categoryId: string,
    configurationDate: string,
    plotIds: seq<string>,
    soilPreparationIds: seq<string>,
    changedBy: string,
    notes: Option<string>)

  /** The row `saveHistory` inserts: the id lists stored whole, empty notes as NULL. */
  function NewHistoryRow(h: NewHistory, id: string): HistoryRow
  {
    HistoryRow(id, h.categoryId, h.configurationDate, h.plotIds, h.soilPreparationIds, h.changedBy, NonEmpty(h.notes))
  }

  /** `saveHistory`: appends one snapshot; `id` is the generated id. */
  method SaveHistory(db: Database, h: NewHistory, id: string) returns (newId: string)
    modifies db`categoryHistory
    ensures newId == id
    ensures db.categoryHistory == old(db.categoryHistory) + [NewHistoryRow(h, id)]
  {
    db.categoryHistory := db.categoryHistory + [NewHistoryRow(h, id)];
    newId := id;
  }

  function ToHistory(r: HistoryRow): CategoryHistory
  {
    CategoryHistory(r.id, r.categoryId, r.configurationDate, r.plotIds, r.soilPreparationIds, r.changedBy, r.notes)
  }

  function HistoryOf(c: string): HistoryRow -> bool
  {
    (r: HistoryRow) => r.categoryId == c
  }

  function ConfigurationDateOf(h: CategoryHistory): string { h.configurationDate }

  /** Snapshots ordered by `configuration_date DESC`. */
  function SortHistory(rows: seq<HistoryRow>): (r: seq<CategoryHistory>)
    ensures forall i, j :: 0 <= i < j < |r| ==> Strings.StrLe(r[j].configurationDate, r[i].configurationDate)
    ensures forall i :: 0 <= i < |r| ==> exists j :: 0 <= j < |rows| && r[i] == ToHistory(rows[j])
    ensures forall i :: 0 <= i < |rows| ==> ToHistory(rows[i]) in r
    ensures multiset(r) == multiset(Seqs.Map(rows, ToHistory))
  {
    var snapshots := Seqs.Map(rows, ToHistory);
    Sorting.SortByTextDescending(snapshots, ConfigurationDateOf);
    Sorting.SortMembers(snapshots, Sorting.ByTextDescending(ConfigurationDateOf));
    assert var r := Sorting.Sort(snapshots, Sorting.ByTextDescending(ConfigurationDateOf));
      forall i, j :: 0 <= i < j < |r| ==> Strings.StrLe(ConfigurationDateOf(r[j]), ConfigurationDateOf(r[i]));
    Sorting.Sort(snapshots, Sorting.ByTextDescending(ConfigurationDateOf))
  }

  /** The sorted snapshots of the category's rows are exactly those rows' snapshots. */
  lemma HistoryOfRows(rows: seq<HistoryRow>, c: string, m: seq<HistoryRow>, r: seq<CategoryHistory>)
    requires m == Seqs.Filter(rows, HistoryOf(c)) && r == SortHistory(m)
    ensures forall i :: 0 <= i < |r| ==> r[i].categoryId == c
    ensures forall i :: 0 <= i < |rows| && rows[i].categoryId == c ==> ToHistory(rows[i]) in r
    ensures forall i :: 0 <= i < |r| ==> exists j :: 0 <= j < |rows| && rows[j].categoryId == c && r[i] == ToHistory(rows[j])
  {
    forall i | 0 <= i < |rows| && rows[i].categoryId == c ensures ToHistory(rows[i]) in r {
      assert HistoryOf(c)(rows[i]);
      var k :| 0 <= k < |m| && m[k] == rows[i];
    }
    forall i | 0 <= i < |r|
      ensures r[i].categoryId == c
      ensures exists j :: 0 <= j < |rows| && rows[j].categoryId == c && r[i] == ToHistory(rows[j])
    {
      var k :| 0 <= k < |m| && r[i] == ToHistory(m[k]);
      assert m[k] in rows && HistoryOf(c)(m[k]);
      var j :| 0 <= j < |rows| && rows[j] == m[k];
    }
  }

  /** `getHistory`: the category's snapshots, most recent configuration date first. */
  function GetHistory(rows: seq<HistoryRow>, c: string): (r: seq<CategoryHistory>)
    ensures forall i :: 0 <= i < |r| ==> r[i].categoryId == c
    ensures forall i, j :: 0 <= i < j < |r| ==> Strings.StrLe(r[j].configurationDate, r[i].configurationDate)
    ensures forall i :: 0 <= i < |rows| && rows[i].categoryId == c ==> ToHistory(rows[i]) in r
    ensures forall i :: 0 <= i < |r| ==> exists j :: 0 <= j < |rows| && rows[j].categoryId == c && r[i] == ToHistory(rows[j])
    ensures multiset(r) == multiset(Seqs.Map(Seqs.Filter(rows, HistoryOf(c)), ToHistory))
  {
    var matching := Seqs.Filter(rows, HistoryOf(c));
    var r := SortHistory(matching);
    HistoryOfRows(rows, c, matching, r);
    r
  }

  /** A saved snapshot is read back under its category with the same plot and soil preparation lists. */
  lemma SavedHistoryFound(rows: seq<HistoryRow>, h: NewHistory, id: string)
    ensures var r := GetHistory(rows + [NewHistoryRow(h, id)], h.categoryId);
      exists k :: 0 <= k < |r| && r[k].id == id && r[k].plotIds == h.plotIds
        && r[k].soilPreparationIds == h.soilPreparationIds && r[k].configurationDate == h.configurationDate
        && r[k].changedBy == h.changedBy
  {
    var all := rows + [NewHistoryRow(h, id)];
    assert all[|rows|] == NewHistoryRow(h, id);
    var r := GetHistory(all, h.categoryId);
    assert ToHistory(NewHistoryRow(h, id)) in r;
  }

  // ---------------------------------------------------------------- update

  /** The fields a category update may carry; None is `undefined`. */
  datatype CategoryPatch = CategoryPatch(
    cycle: Option<int>,
    name: Option<string>,
    expectedProductivity: Option<real>,
    standardRevenue: Option<real>,
    standardCosts: Option<real>,
    parentCategoryId: Option<string>)

  /** The columns `update` may push, in the order it tests them, with the values it binds. */
  function CategoryFields(p: CategoryPatch): seq<Field>
  {
    [ IntField("cycle", p.cycle),
      TextField("name", p.name),
      RealField("expected_productivity", p.expectedProductivity),
      RealField("standard_revenue", p.standardRevenue),
      RealField("standard_costs", p.standardCosts),
      TextField("parent_category_id", p.parentCategoryId) ]
  }

  /** The SET list of `update`: the supplied fields, then `updated_at = CURRENT_TIMESTAMP`. */
  function CategoryAssignments(p: CategoryPatch): seq<Assignment>
  {
    Supplied(CategoryFields(p)) + [SetNow("updated_at")]
  }

  /** A row as SQLite sees it: the value held in each column; None for a column the table lacks. */
  function CategoryColumn(r: CategoryRow, column: string): Option<SqlValue>
  {
    if column == "id" then Some(SqlText(r.id))
    else if column == "cycle" then Some(SqlInt(r.cycle))
    else if column == "name" then Some(SqlText(r.name))
    else if column == "expected_productivity" then Some(SqlReal(r.expectedProductivity))
    else if column == "standard_revenue" then Some(SqlReal(r.standardRevenue))
    else if column == "standard_costs" then Some(SqlReal(r.standardCosts))
    else if column == "parent_category_id" then Some(TextOrNull(r.parentCategoryId))
    else if column == "updated_at" then Some(SqlText(r.updatedAt))
    else None
  }

  /** A row after `update` at time `now`: each supplied field replaced and the update time set. */
  function ApplyCategoryPatch(r: CategoryRow, p: CategoryPatch, now: string): CategoryRow
  {
    r.(cycle := p.cycle.GetOr(r.cycle),
       name := p.name.GetOr(r.name),
       expectedProductivity := p.expectedProductivity.GetOr(r.expectedProductivity),
       standardRevenue := p.standardRevenue.GetOr(r.standardRevenue),
       standardCosts := p.standardCosts.GetOr(r.standardCosts),
       parentCategoryId := if p.parentCategoryId.Some? then p.parentCategoryId else r.parentCategoryId,
       updatedAt := now)
  }

  /** The table after `UPDATE categories SET … WHERE id = ?` at time `now`. */
  function UpdateCategoryRows(rows: seq<CategoryRow>, id: string, p: CategoryPatch, now: string): seq<CategoryRow>
  {
    Seqs.Map(rows, (r: CategoryRow) => if r.id == id then ApplyCategoryPatch(r, p, now) else r)
  }

  /**
   * `update`: nothing at all when no field is supplied (not even the update
   * time); otherwise one UPDATE of the supplied columns and `updated_at`.
   */
  method UpdateCategory(db: Database, id: string, p: CategoryPatch, now: string) returns (st: Option<UpdateStatement>)
    modifies db`categories
    ensures st.None? <==> NoneSupplied(CategoryFields(p))
    ensures st.Some? ==> st.value == UpdateStatement("categories", CategoryAssignments(p), id)
    ensures st.None? ==> db.categories == old(db.categories)
    ensures st.Some? ==> db.categories == UpdateCategoryRows(old(db.categories), id, p, now)
  {
    var assignments := BuildAssignments(CategoryFields(p));
    if |assignments| == 0 {
      st := None;
    } else {
      st := Some(UpdateStatement("categories", assignments + [SetNow("updated_at")], id));
      db.categories := UpdateCategoryRows(db.categories, id, p, now);
    }
  }

  /**
   * The statement of `update` binds one value per supplied field plus the id,
   * one per placeholder, and sets `updated_at` last without binding a value.
   */
  lemma CategoryStatementShape(id: string, p: CategoryPatch)
    ensures var st := UpdateStatement("categories", CategoryAssignments(p), id);
      && |BoundValues(st)| == SuppliedCount(CategoryFields(p)) + 1
      && Placeholders(Render(st)) == |BoundValues(st)|
      && st.assignments[|st.assignments| - 1] == SetNow("updated_at")
  {
    BoundValuesCount("categories", CategoryFields(p), [SetNow("updated_at")], id);
  }

  /** Column `column` holds the value the statement leaves in it, or is unchanged when the statement does not assign it. */
  predicate CategoryAgreesAt(r: CategoryRow, p: CategoryPatch, now: string, column: string)
  {
    match ValueAfter(CategoryAssignments(p), column, now)
    case Some(v) => CategoryColumn(ApplyCategoryPatch(r, p, now), column) == Some(v)
    case None => CategoryColumn(ApplyCategoryPatch(r, p, now), column) == CategoryColumn(r, column)
  }

  /**
   * The statement and the row update agree: a column the statement assigns
   * holds the statement's value afterwards, and every other column is unchanged.
   */
  lemma CategoryUpdateAgrees(r: CategoryRow, p: CategoryPatch, now: string, column: string)
    ensures CategoryAgreesAt(r, p, now, column)
  {
    if column == "cycle" || column == "name" || column == "expected_productivity" {
      CategoryUpdateAgreesGroup1(r, p, now, column);
    } else if column == "standard_revenue" || column == "standard_costs" || column == "parent_category_id" {
      CategoryUpdateAgreesGroup2(r, p, now, column);
    } else {
      CategoryUpdateAgreesOther(r, p, now, column);
    }
  }

  lemma CategoryUpdateAgreesGroup1(r: CategoryRow, p: CategoryPatch, now: string, column: string)
    requires column == "cycle" || column == "name" || column == "expected_productivity"
    ensures CategoryAgreesAt(r, p, now, column)
  {
    var fields := CategoryFields(p);
    ValueAfterAppend(Supplied(fields), [SetNow("updated_at")], column, now);
    ValueAfterSupplied(fields, column, now);
    CategoryFieldsColumns(p);
    var after := ApplyCategoryPatch(r, p, now);
    if column == "cycle" {
      LastValueAt(fields, 0);
      assert CategoryColumn(after, column) == Some(SqlInt(after.cycle));
      assert CategoryColumn(r, column) == Some(SqlInt(r.cycle));
    } else if column == "name" {
      LastValueAt(fields, 1);
      assert CategoryColumn(after, column) == Some(SqlText(after.name));
      assert CategoryColumn(r, column) == Some(SqlText(r.name));
    } else {
      LastValueAt(fields, 2);
      assert CategoryColumn(after, column) == Some(SqlReal(after.expectedProductivity));
      assert CategoryColumn(r, column) == Some(SqlReal(r.expectedProductivity));
    }
  }

  lemma CategoryUpdateAgreesGroup2(r: CategoryRow, p: CategoryPatch, now: string, column: string)
    requires column == "standard_revenue" || column == "standard_costs" || column == "parent_category_id"
    ensures CategoryAgreesAt(r, p, now, column)
  {
    var fields := CategoryFields(p);
    ValueAfterAppend(Supplied(fields), [SetNow("updated_at")], column, now);
    ValueAfterSupplied(fields, column, now);
    CategoryFieldsColumns(p);
    var after := ApplyCategoryPatch(r, p, now);
    if column == "standard_revenue" {
      LastValueAt(fields, 3);
      assert CategoryColumn(after, column) == Some(SqlReal(after.standardRevenue));
      assert CategoryColumn(r, column) == Some(SqlReal(r.standardRevenue));
    } else if column == "standard_costs" {
      LastValueAt(fields, 4);
      assert CategoryColumn(after, column) == Some(SqlReal(after.standardCosts));
      assert CategoryColumn(r, column) == Some(SqlReal(r.standardCosts));
    } else {
      LastValueAt(fields, 5);
      assert CategoryColumn(after, column) == Some(TextOrNull(after.parentCategoryId));
      assert CategoryColumn(r, column) == Some(TextOrNull(r.parentCategoryId));
    }
  }

  /** The statement assigns no column outside the updatable ones, except the update time. */
  lemma CategoryStatementOther(p: CategoryPatch, now: string, column: string)
    requires column !in CATEGORY_UPDATE_COLUMNS
    ensures ValueAfter(CategoryAssignments(p), column, now) == (if column == "updated_at" then Some(SqlText(now)) else None)
  {
    var fields := CategoryFields(p);
    ValueAfterAppend(Supplied(fields), [SetNow("updated_at")], column, now);
    ValueAfterSupplied(fields, column, now);
    CategoryFieldsColumns(p);
    forall i | 0 <= i < |fields| ensures fields[i].column != column {
      assert fields[i].column == CATEGORY_UPDATE_COLUMNS[i];
    }
    LastValueAbsent(fields, column);
  }

  lemma CategoryUpdateAgreesOther(r: CategoryRow, p: CategoryPatch, now: string, column: string)
    requires column !in CATEGORY_UPDATE_COLUMNS
    ensures CategoryAgreesAt(r, p, now, column)
  {
    CategoryStatementOther(p, now, column);
    var after := ApplyCategoryPatch(r, p, now);
    assert after.id == r.id;
    if column != "updated_at" {
      CategoryColumnOther(after, r, column);
    }
  }

  /** Outside the columns an update sets, a row's columns are unchanged when these fields are. */
  lemma CategoryColumnOther(a: CategoryRow, b: CategoryRow, column: string)
    requires column !in CATEGORY_UPDATE_COLUMNS && column != "updated_at"
    requires a.id == b.id
    ensures CategoryColumn(a, column) == CategoryColumn(b, column)
  {
  }

  /** The columns the update may set from supplied fields, each once. */
  const CATEGORY_UPDATE_COLUMNS: seq<string> :=
    ["cycle", "name", "expected_productivity", "standard_revenue", "standard_costs", "parent_category_id"]

  lemma CategoryFieldsColumns(p: CategoryPatch)
    ensures FieldColumns(CategoryFields(p)) == CATEGORY_UPDATE_COLUMNS
    ensures Seqs.NoDuplicates(CATEGORY_UPDATE_COLUMNS)
  {
  }
}
