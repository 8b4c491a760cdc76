/**
 * The plot-selection logic of the category form screen: the schema the
 * form data must satisfy, the lookup of a category that already holds a
 * plot for the watched cycle, the selection list of plot ids the add and
 * remove buttons edit, the plots offered for the cycle, and the cycle
 * picker's options.
 */
module CategoryFormScreen {

  import opened Wrappers
  import opened Entities
  import Seqs
  import Strings

  /** The fields of the form the schema checks. */
  datatype CategoryFormData = CategoryFormData(
    name: string,
    cycle: int,
    expectedProductivity: real,
    standardRevenue: real,
    standardCosts: real,
    parentCategoryId: Option<string>)

  /** `categoryFormSchema`: a name, a cycle from 0 to 10, and no negative figure. */
  predicate ValidCategoryForm(d: CategoryFormData)
  {
    |d.name| >= 1 && 0 <= d.cycle <= 10
    && d.expectedProductivity >= 0.0 && d.standardRevenue >= 0.0 && d.standardCosts >= 0.0
  }

  /** The form's `defaultValues`. */
  const DEFAULT_FORM: CategoryFormData := CategoryFormData("", 0, 0.0, 0.0, 0.0, None)

  /** The defaults fail the schema on the name alone: typing a name makes them valid. */
  lemma DefaultsNeedOnlyAName(name: string)
    requires name != ""
    ensures !ValidCategoryForm(DEFAULT_FORM)
    ensures ValidCategoryForm(DEFAULT_FORM.(name := name))
  {
  }

  /** The category lists the plot. */
  predicate ListsPlot(c: Category, plotId: string)
  {
    exists i :: 0 <= i < |c.plots| && c.plots[i].id == plotId
  }

  /** `cat.cycle === watchedCycle && cat.plots.some(p => p.id === plotId) && cat.id !== categoryId`. */
  function Conflicts(watchedCycle: int, plotId: string, editing: Option<string>): Category -> bool
  {
    (c: Category) => c.cycle == watchedCycle && ListsPlot(c, plotId) && (editing.None? || c.id != editing.value)
  }

  /**
   * The category that already holds the plot for the watched cycle, other
   * than the one being edited (`editing`, absent when creating).
   */
  function ExistingCategory(all: seq<Category>, watchedCycle: int, plotId: string, editing: Option<string>)
    : (r: Option<Category>)
    ensures r.Some? <==> (exists i :: 0 <= i < |all| && all[i].cycle == watchedCycle
                            && ListsPlot(all[i], plotId) && (editing.None? || all[i].id != editing.value))
    ensures r.Some? ==> r.value in all && r.value.cycle == watchedCycle && ListsPlot(r.value, plotId)
    ensures r.Some? && editing.Some? ==> r.value.id != editing.value
  {
    Seqs.Find(all, Conflicts(watchedCycle, plotId, editing))
  }

  /**
   * While a category is being edited, no dialog appears for a plot that only
   * the edited category holds in the watched cycle, whatever other categories
   * the list contains.
   */
  lemma EditedCategoryNeverConflicts(all: seq<Category>, watchedCycle: int, plotId: string, c: Category)
    requires forall i :: 0 <= i < |all| && all[i].cycle == watchedCycle && ListsPlot(all[i], plotId) ==> all[i].id == c.id
    ensures ExistingCategory(all, watchedCycle, plotId, Some(c.id)).None?
  {
  }

  /** While a category is being edited, another category holding the plot in the watched cycle is reported. */
  lemma OtherHolderConflicts(all: seq<Category>, watchedCycle: int, plotId: string, c: Category, k: int)
    requires 0 <= k < |all| && all[k].cycle == watchedCycle && ListsPlot(all[k], plotId) && all[k].id != c.id
    ensures ExistingCategory(all, watchedCycle, plotId, Some(c.id)).Some?
  {
  }

  /** `prev.filter(id => id !== plotId)`. */
  function Without(ids: seq<string>, plotId: string): (r: seq<string>)
    ensures plotId !in r
    ensures forall x :: x in ids && x != plotId ==> x in r
    ensures forall x :: x in r ==> x in ids
  {
    Seqs.Filter(ids, (x: string) => x != plotId)
  }

  /** Removing keeps the other ids in their order: it distributes over concatenation. */
  lemma WithoutAppend(a: seq<string>, b: seq<string>, plotId: string)
    ensures Without(a + b, plotId) == Without(a, plotId) + Without(b, plotId)
  {
    Seqs.FilterAppend(a, b, (x: string) => x != plotId);
  }

  /** Removing an id never duplicates another: a duplicate-free selection stays duplicate-free. */
  lemma {:induction false} WithoutKeepsNoDuplicates(ids: seq<string>, plotId: string)
    requires Seqs.NoDuplicates(ids)
    ensures Seqs.NoDuplicates(Without(ids, plotId))
  {
    if |ids| > 0 {
      WithoutKeepsNoDuplicates(ids[1..], plotId);
      var rest := Without(ids[1..], plotId);
      if ids[0] != plotId {
        assert ids[0] !in ids[1..];
        assert ids[0] !in rest;
        assert Without(ids, plotId) == [ids[0]] + rest;
        Seqs.NoDuplicatesAppend([ids[0]], rest);
      } else {
        assert Without(ids, plotId) == rest;
      }
    }
  }

  /** Confirming "Mover": the plot is in the selection exactly once, at the end. */
  lemma MoveLeavesPlotOnceAtEnd(ids: seq<string>, plotId: string)
    ensures var r := Without(ids, plotId) + [plotId];
      r[|r| - 1] == plotId && Seqs.Occurrences(r, plotId) == 1
      && forall i :: 0 <= i < |r| - 1 ==> r[i] != plotId
  {
    var w := Without(ids, plotId);
    assert multiset(w)[plotId] == 0;
    assert multiset(w + [plotId]) == multiset(w) + multiset{plotId};
  }

  /**
   * The ids of the plots currently in the category being edited (React
   * state `selectedPlotIds`), and the transitions the add and remove
   * buttons make on it.
   */
  class PlotSelection {
    var ids: seq<string>

    constructor (initial: seq<string>)
      ensures ids == initial
    {
      ids := initial;
    }

    /** `removePlotFromCategory`, once the user confirms: every occurrence of the id goes. */
    method RemovePlot(plotId: string, confirmed: bool)
      modifies this
      ensures confirmed ==> ids == Without(old(ids), plotId)
      ensures !confirmed ==> ids == old(ids)
    {
      if confirmed {
        ids := Without(ids, plotId);
      }
    }

    /**
     * `addPlotToCategory`: without a conflicting category the id is
     * appended; with one, the user is asked, and "Mover" moves the id to
     * the end while "Cancelar" changes nothing.
     */
    method AddPlot(all: seq<Category>, watchedCycle: int, plotId: string, editing: Option<string>, moveConfirmed: bool)
      modifies this
      ensures ExistingCategory(all, watchedCycle, plotId, editing).None? ==> ids == old(ids) + [plotId]
      ensures ExistingCategory(all, watchedCycle, plotId, editing).Some? && moveConfirmed ==>
        ids == Without(old(ids), plotId) + [plotId]
      ensures ExistingCategory(all, watchedCycle, plotId, editing).Some? && !moveConfirmed ==> ids == old(ids)
    {
      var existing := ExistingCategory(all, watchedCycle, plotId, editing);
      if existing.Some? {
        if moveConfirmed {
          ids := Without(ids, plotId) + [plotId];
        }
      } else {
        ids := ids + [plotId];
      }
    }
  }

  /** `getAvailablePlotsForCycle`: plots of the watched cycle that are not selected yet. */
  function AvailablePlotsForCycle(plots: seq<Plot>, watchedCycle: int, selected: seq<string>): (r: seq<Plot>)
    ensures forall p :: p in r <==> p in plots && p.currentCycle == watchedCycle && p.id !in selected
  {
    Seqs.Filter(plots, (p: Plot) => p.currentCycle == watchedCycle && p.id !in selected)
  }

  /** Adding an offered plot without a conflict never duplicates an id in the selection. */
  lemma AvailableAppendKeepsNoDuplicates(plots: seq<Plot>, watchedCycle: int, selected: seq<string>, p: Plot)
    requires Seqs.NoDuplicates(selected)
    requires p in AvailablePlotsForCycle(plots, watchedCycle, selected)
    ensures Seqs.NoDuplicates(selected + [p.id])
  {
    Seqs.NoDuplicatesAppend(selected, [p.id]);
  }

  /** `getSelectedPlots`: the plots whose id is selected, in the order of the plot list. */
  function SelectedPlots(plots: seq<Plot>, selected: seq<string>): (r: seq<Plot>)
    ensures forall p :: p in r <==> p in plots && p.id in selected
  {
    Seqs.Filter(plots, (p: Plot) => p.id in selected)
  }

  /** A plot of the watched cycle is either offered or shown as selected, never both. */
  lemma OfferedOrSelected(plots: seq<Plot>, watchedCycle: int, selected: seq<string>, p: Plot)
    requires p in plots && p.currentCycle == watchedCycle
    ensures p in AvailablePlotsForCycle(plots, watchedCycle, selected) <==> p !in SelectedPlots(plots, selected)
  {
  }

  /** Selected plots keep the plot list's order: selecting from a concatenation selects from each part. */
  lemma SelectedPlotsAppend(a: seq<Plot>, b: seq<Plot>, selected: seq<string>)
    ensures SelectedPlots(a + b, selected) == SelectedPlots(a, selected) + SelectedPlots(b, selected)
  {
    Seqs.FilterAppend(a, b, (p: Plot) => p.id in selected);
  }

  /** The `CategoryType` labels for cycles 0 to 10. */
  const CYCLE_TYPE_NAMES: seq<string> := [
    "Reforma (0)", "Primeiro Corte (1)", "Segundo Corte (2)", "Terceiro Corte (3)",
    "Quarto Corte (4)", "Quinto Corte (5)", "Sexto Corte (6)", "Sétimo Corte (7)",
    "Oitavo Corte (8)", "Nono Corte (9)", "Décimo Corte (10)"
  ]

  /** `getCycleTypeName`: the label of a known cycle type, otherwise "Ciclo n". */
  function CycleTypeName(cycle: int): (name: string)
    ensures 0 <= cycle <= 10 ==> name == CYCLE_TYPE_NAMES[cycle]
    ensures !(0 <= cycle <= 10) ==> name == "Ciclo " + Strings.IntToString(cycle)
    ensures name != ""
  {
    if 0 <= cycle <= 10 then CYCLE_TYPE_NAMES[cycle] else "Ciclo " + Strings.IntToString(cycle)
  }

  datatype CycleOption = CycleOption(value: int, name: string)

  /** `cycleOptions`: one option per value 0..10, labelled by its cycle type name. */
  function CycleOptions(): (r: seq<CycleOption>)
    ensures |r| == 11
    ensures forall i :: 0 <= i < 11 ==> r[i] == CycleOption(i, CycleTypeName(i))
  {
    seq(11, (i: int) => CycleOption(i, CycleTypeName(i)))
  }

  /** The picker offers exactly the cycles the schema accepts. */
  lemma CycleOptionsMatchSchema(d: CategoryFormData)
    ensures 0 <= d.cycle <= 10 <==> exists i :: 0 <= i < |CycleOptions()| && CycleOptions()[i].value == d.cycle
  {
    if 0 <= d.cycle <= 10 {
      assert CycleOptions()[d.cycle].value == d.cycle;
    }
  }
}
