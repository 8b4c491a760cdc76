/**
 * The Redux slice holding production records on the client. Only the
 * `fetchProductions` thunk has pending and rejected cases; the other
 * fulfilled cases leave `loading` and `error` alone.
 */
module ProductionsSlice {

  import opened Wrappers
  import opened Entities
  import SliceLists
  import Seqs

  /** One row of the per-cycle production summary, as the repository returns it. */
  datatype CycleSummaryRow = CycleSummaryRow(
    cycle: int,
    cycleName: string,
    plotCount: int,
    totalArea: real,
    totalTonnage: real,
    totalRevenue: real,
    totalCosts: real,
    averageATR: real,
    averageProductivity: real)

  const FETCH_PRODUCTIONS_ERROR: string := "Failed to fetch productions"

  function ProductionId(p: Production): string
  {
    p.id
  }

  class ProductionsState {
    var productions: seq<Production>
    var selectedProduction: Option<Production>
    var cycleSummary: seq<CycleSummaryRow>
    var loading: bool
    var error: Option<string>

    /** `initialState`. */
    constructor ()
      ensures productions == [] && selectedProduction == None && cycleSummary == []
      ensures !loading && error == None
    {
      productions := [];
      selectedProduction := None;
      cycleSummary := [];
      loading := false;
      error := None;
    }

    /** `clearSelectedProduction`: only the selection changes. */
    method ClearSelectedProduction()
      modifies this`selectedProduction
      ensures selectedProduction == None
    {
      selectedProduction := None;
    }

    /** `clearError`: only the error changes. */
    method ClearError()
      modifies this`error
      ensures error == None
    {
      error := None;
    }

    /** `fetchProductions.pending`. */
    method FetchProductionsPending()
      modifies this`loading, this`error
      ensures loading && error == None
    {
      loading := true;
      error := None;
    }

    /** `fetchProductions.fulfilled`: the list becomes the payload. */
    method FetchProductionsFulfilled(payload: seq<Production>)
      modifies this`loading, this`productions
      ensures !loading && productions == payload
    {
      loading := false;
      productions := payload;
    }

    /** `fetchProductions.rejected`. */
    method FetchProductionsRejected(message: Option<string>)
      modifies this`loading, this`error
      ensures !loading
      ensures error == Some(SliceLists.ErrorText(message, FETCH_PRODUCTIONS_ERROR))
    {
      loading := false;
      error := Some(SliceLists.ErrorText(message, FETCH_PRODUCTIONS_ERROR));
    }

    /** `fetchProductionById.fulfilled`: only the selection changes, null included. */
    method FetchProductionByIdFulfilled(payload: Option<Production>)
      modifies this`selectedProduction
      ensures selectedProduction == payload
    {
      selectedProduction := payload;
    }

    /**
     * `fetchProductionsByPlot.fulfilled` and `fetchProductionsByCycle.fulfilled`:
     * the whole list is replaced; nothing else changes.
     */
    method FetchProductionsFilteredFulfilled(payload: seq<Production>)
      modifies this`productions
      ensures productions == payload
    {
      productions := payload;
    }

    /** `fetchProductionSummary.fulfilled`: only the summary changes. */
    method FetchProductionSummaryFulfilled(payload: seq<CycleSummaryRow>)
      modifies this`cycleSummary
      ensures cycleSummary == payload
    {
      cycleSummary := payload;
    }

    /** `createProduction.fulfilled`: a non-null payload goes to the front (`unshift`). */
    method CreateProductionFulfilled(payload: Option<Production>)
      modifies this`productions
      ensures payload.Some? ==> productions == [payload.value] + old(productions)
      ensures payload.None? ==> productions == old(productions)
    {
      if payload.Some? {
        productions := [payload.value] + productions;
      }
    }

    /**
     * `updateProduction.fulfilled`: the first record with the payload's id
     * is replaced in place and the selection follows it when it shows that id.
     */
    method UpdateProductionFulfilled(payload: Option<Production>)
      modifies this`productions, this`selectedProduction
      ensures payload.None? ==> productions == old(productions) && selectedProduction == old(selectedProduction)
      ensures payload.Some? ==> productions == SliceLists.ReplaceById(old(productions), payload.value, ProductionId)
      ensures payload.Some? ==>
        selectedProduction == SliceLists.SyncSelected(old(selectedProduction), payload.value, ProductionId)
    {
      if payload.Some? {
        var production := payload.value;
        var index := Seqs.FirstIndex(productions, SliceLists.IdIs(ProductionId, production.id));
        if index.Some? {
          productions := productions[index.value := production];
        }
        if selectedProduction.Some? && selectedProduction.value.id == production.id {
          selectedProduction := payload;
        }
      }
    }

    /**
     * `deleteProduction.fulfilled`: every record with the id goes, and the
     * selection is cleared when it shows that id.
     */
    method DeleteProductionFulfilled(id: string)
      modifies this`productions, this`selectedProduction
      ensures productions == SliceLists.RemoveById(old(productions), id, ProductionId)
      ensures selectedProduction == SliceLists.DropSelected(old(selectedProduction), id, ProductionId)
    {
      productions := Seqs.Filter(productions, SliceLists.IdIsNot(ProductionId, id));
      if selectedProduction.Some? && selectedProduction.value.id == id {
        selectedProduction := None;
      }
    }
  }
}
