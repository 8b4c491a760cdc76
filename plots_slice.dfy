/**
 * The Redux slice holding the plot list on the client: a state of five
 * fields that each reducer case updates in place (Immer's draft state).
 * The asynchronous thunks are represented by their outcomes: a `Pending`,
 * a `...Fulfilled` carrying the payload the repository returned, or a
 * `Rejected` carrying the error message, if any.
 */
module PlotsSlice {

  import opened Wrappers
  import opened Entities
  import SliceLists
  import Seqs

  /** The thunks whose pending and rejected cases the slice handles. */
  datatype PlotThunk = FetchPlots | FetchPlotById | CreatePlot | UpdatePlot | DeletePlot

  /** The fixed message a rejected thunk falls back to. */
  function DefaultError(thunk: PlotThunk): (msg: string)
    ensures msg != ""
    ensures |msg| > 10 && msg[..10] == "Failed to "
  {
    match thunk
    case FetchPlots => "Failed to fetch plots"
    case FetchPlotById => "Failed to fetch plot"
    case CreatePlot => "Failed to create plot"
    case UpdatePlot => "Failed to update plot"
    case DeletePlot => "Failed to delete plot"
  }

  function PlotId(p: Plot): string
  {
    p.id
  }

  class PlotsState {
    var plots: seq<Plot>
    var selectedPlot: Option<Plot>
    var nextPlotNumber: int
    var loading: bool
    var error: Option<string>

    /** `initialState`. */
    constructor ()
      ensures plots == [] && selectedPlot == None && nextPlotNumber == 1
      ensures !loading && error == None
    {
      plots := [];
      selectedPlot := None;
      nextPlotNumber := 1;
      loading := false;
      error := None;
    }

    /** `clearSelectedPlot`: only the selection changes. */
    method ClearSelectedPlot()
      modifies this`selectedPlot
      ensures selectedPlot == None
    {
      selectedPlot := None;
    }

    /** `clearError`: only the error changes. */
    method ClearError()
      modifies this`error
      ensures error == None
    {
      error := None;
    }

    /** The pending case of every thunk but `getNextPlotNumber`: the list and the selection stay. */
    method Pending(thunk: PlotThunk)
      modifies this`loading, this`error
      ensures loading && error == None
    {
      loading := true;
      error := None;
    }

    /** The rejected case of every thunk but `getNextPlotNumber`: the list and the selection stay. */
    method Rejected(thunk: PlotThunk, message: Option<string>)
      modifies this`loading, this`error
      ensures !loading
      ensures error == Some(SliceLists.ErrorText(message, DefaultError(thunk)))
    {
      loading := false;
      error := Some(SliceLists.ErrorText(message, DefaultError(thunk)));
    }

    /** `fetchPlots.fulfilled`: the list becomes the payload. */
    method FetchPlotsFulfilled(payload: seq<Plot>)
      modifies this`loading, this`plots
      ensures !loading && plots == payload
    {
      loading := false;
      plots := payload;
    }

    /** `fetchPlotById.fulfilled`: the selection becomes the payload, null included. */
    method FetchPlotByIdFulfilled(payload: Option<Plot>)
      modifies this`loading, this`selectedPlot
      ensures !loading && selectedPlot == payload
    {
      loading := false;
      selectedPlot := payload;
    }

    /** `createPlot.fulfilled`: a non-null payload is pushed at the end. */
    method CreatePlotFulfilled(payload: Option<Plot>)
      modifies this`loading, this`plots
      ensures !loading
      ensures payload.Some? ==> plots == old(plots) + [payload.value]
      ensures payload.None? ==> plots == old(plots)
    {
      loading := false;
      if payload.Some? {
        plots := plots + [payload.value];
      }
    }

    /**
     * `updatePlot.fulfilled`: the first plot with the payload's id is
     * replaced in place and the selection follows it when it shows that id.
     */
    method UpdatePlotFulfilled(payload: Option<Plot>)
      modifies this`loading, this`plots, this`selectedPlot
      ensures !loading
      ensures payload.None? ==> plots == old(plots) && selectedPlot == old(selectedPlot)
      ensures payload.Some? ==> plots == SliceLists.ReplaceById(old(plots), payload.value, PlotId)
      ensures payload.Some? ==> selectedPlot == SliceLists.SyncSelected(old(selectedPlot), payload.value, PlotId)
    {
      loading := false;
      if payload.Some? {
        var plot := payload.value;
        var index := Seqs.FirstIndex(plots, SliceLists.IdIs(PlotId, plot.id));
        if index.Some? {
          plots := plots[index.value := plot];
        }
        if selectedPlot.Some? && selectedPlot.value.id == plot.id {
          selectedPlot := payload;
        }
      }
    }

    /**
     * `deletePlot.fulfilled`: every plot with the id goes, and the selection
     * is cleared when it shows that id.
     */
    method DeletePlotFulfilled(id: string)
      modifies this`loading, this`plots, this`selectedPlot
      ensures !loading
      ensures plots == SliceLists.RemoveById(old(plots), id, PlotId)
      ensures selectedPlot == SliceLists.DropSelected(old(selectedPlot), id, PlotId)
    {
      loading := false;
      plots := Seqs.Filter(plots, SliceLists.IdIsNot(PlotId, id));
      if selectedPlot.Some? && selectedPlot.value.id == id {
        selectedPlot := None;
      }
    }

    /** `getNextPlotNumber.fulfilled`: only the next number changes. */
    method GetNextPlotNumberFulfilled(payload: int)
      modifies this`nextPlotNumber
      ensures nextPlotNumber == payload
    {
      nextPlotNumber := payload;
    }
  }
}
