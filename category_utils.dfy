/**
 * Lookups of a plot's category assignment over an in-memory list of
 * categories, each carrying the plots assigned to it. A plot's cycle here is
 * the cycle of the first category that lists it, which is a different notion
 * from the plot's own stored `currentCycle`.
 */
module CategoryUtils {

  import opened Wrappers
  import opened Entities
  import Seqs

  /** What is known about a plot's assignment; the optional parts are present only when assigned. */
  datatype PlotCategoryInfo = PlotCategoryInfo(
    isAssigned: bool,
    categoryName: Option<string>,
    categoryId: Option<string>,
    cycle: Option<int>)

  /** A plot together with its assignment information. */
  datatype PlotWithCategory = PlotWithCategory(plot: Plot, categoryInfo: PlotCategoryInfo)

  /** The category lists a plot with this id. */
  predicate Lists(c: Category, plotId: string)
  {
    exists k :: 0 <= k < |c.plots| && c.plots[k].id == plotId
  }

  function ListsPlot(plotId: string): Category -> bool
  {
    (c: Category) => Lists(c, plotId)
  }

  /** Category `cs[i]` is the first that lists the plot. */
  predicate FirstListing(cs: seq<Category>, plotId: string, i: int)
  {
    0 <= i < |cs| && Lists(cs[i], plotId) && forall j :: 0 <= j < i ==> !Lists(cs[j], plotId)
  }

  /** The information a category gives about a plot it lists. */
  function InfoFrom(c: Category): PlotCategoryInfo
  {
    PlotCategoryInfo(true, Some(c.name), Some(c.id), Some(c.cycle))
  }

  /** The assignment of a plot: the first category, in list order, that lists it. */
  function GetPlotCategoryInfo(plotId: string, categories: seq<Category>): (info: PlotCategoryInfo)
    ensures info.isAssigned <==> exists i :: 0 <= i < |categories| && Lists(categories[i], plotId)
    ensures info.isAssigned ==> exists i :: FirstListing(categories, plotId, i) && info == InfoFrom(categories[i])
    ensures !info.isAssigned ==> info == PlotCategoryInfo(false, None, None, None)
  {
    match Seqs.FirstIndex(categories, ListsPlot(plotId))
    case Some(i) =>
      var c := categories[i];
      assert FirstListing(categories, plotId, i);
      InfoFrom(c)
    case None =>
      PlotCategoryInfo(false, None, None, None)
  }

  function WithInfo(categories: seq<Category>): Plot -> PlotWithCategory
  {
    (p: Plot) => PlotWithCategory(p, GetPlotCategoryInfo(p.id, categories))
  }

  /** Every plot, in order, paired with its own assignment information. */
  function GetPlotsWithCategoryInfo(plots: seq<Plot>, categories: seq<Category>): (r: seq<PlotWithCategory>)
    ensures |r| == |plots|
    ensures forall i :: 0 <= i < |r| ==> r[i].plot == plots[i]
    ensures forall i :: 0 <= i < |r| ==> r[i].categoryInfo == GetPlotCategoryInfo(plots[i].id, categories)
    ensures forall i :: 0 <= i < |r| ==>
      (r[i].categoryInfo.isAssigned <==> exists k :: 0 <= k < |categories| && Lists(categories[k], plots[i].id))
  {
    Seqs.Map(plots, WithInfo(categories))
  }

  function IsAssignedIn(categories: seq<Category>): Plot -> bool
  {
    (p: Plot) => GetPlotCategoryInfo(p.id, categories).isAssigned
  }

  /** No category lists the plot. */
  predicate Unlisted(categories: seq<Category>, plotId: string)
  {
    forall k :: 0 <= k < |categories| ==> !Lists(categories[k], plotId)
  }

  /** The plots no category lists, in order. */
  function GetUnassignedPlots(plots: seq<Plot>, categories: seq<Category>): (r: seq<Plot>)
    ensures forall i :: 0 <= i < |r| ==> r[i] in plots && Unlisted(categories, r[i].id)
    ensures forall i :: 0 <= i < |plots| && Unlisted(categories, plots[i].id) ==> plots[i] in r
  {
    Seqs.Filter(plots, Seqs.Not(IsAssignedIn(categories)))
  }

  /** The unassigned and the assigned plots together make up the input. */
  lemma UnassignedPartition(plots: seq<Plot>, categories: seq<Category>)
    ensures multiset(GetUnassignedPlots(plots, categories)) + multiset(Seqs.Filter(plots, IsAssignedIn(categories)))
      == multiset(plots)
  {
    Seqs.FilterPartition(plots, IsAssignedIn(categories));
  }

  function HasId(categoryId: string): Category -> bool
  {
    (c: Category) => c.id == categoryId
  }

  /** `cs[k]` is the first category with this id, the one `find` returns. */
  predicate FirstWithId(cs: seq<Category>, categoryId: string, k: int)
  {
    0 <= k < |cs| && cs[k].id == categoryId && forall j :: 0 <= j < k ==> cs[j].id != categoryId
  }

  /** The first category with this id lists the plot. */
  function IsPlotInCategory(plotId: string, categoryId: string, categories: seq<Category>): (r: bool)
    ensures r <==> exists k :: FirstWithId(categories, categoryId, k) && Lists(categories[k], plotId)
  {
    match Seqs.FirstIndex(categories, HasId(categoryId))
    case Some(k) =>
      assert FirstWithId(categories, categoryId, k);
      Lists(categories[k], plotId)
    case None => false
  }

  /** An unknown category holds no plot, and a plot in some category counts as assigned. */
  lemma IsPlotInCategoryAssigned(plotId: string, categoryId: string, categories: seq<Category>)
    ensures (forall k :: 0 <= k < |categories| ==> categories[k].id != categoryId) ==>
      !IsPlotInCategory(plotId, categoryId, categories)
    ensures IsPlotInCategory(plotId, categoryId, categories) ==> GetPlotCategoryInfo(plotId, categories).isAssigned
  {
  }

  /** The cycle of the plot's category, if it has one. */
  function GetPlotCycle(plotId: string, categories: seq<Category>): (r: Option<int>)
    ensures r == GetPlotCategoryInfo(plotId, categories).cycle
    ensures r.None? <==> !GetPlotCategoryInfo(plotId, categories).isAssigned
  {
    match Seqs.Find(categories, ListsPlot(plotId))
    case Some(c) => Some(c.cycle)
    case None => None
  }

  /**
   * The cycle derived from the category and the cycle stored on the plot are
   * independent: a plot stored at cycle 3 inside a category of cycle 1
   * reports cycle 1 here.
   */
  lemma CategoryCycleIsNotStoredCycle(p: Plot, c: Category)
    requires p.currentCycle == 3 && c.cycle == 1 && c.plots == [p]
    ensures GetPlotCycle(p.id, [c]) == Some(1)
    ensures GetPlotCycle(p.id, [c]) != Some(p.currentCycle)
  {
    assert Lists(c, p.id) by { assert c.plots[0].id == p.id; }
    Seqs.FindIsFirst([c], ListsPlot(p.id), 0);
  }
}
