/**
 * The plot form: the schema a submitted plot must satisfy, the values the
 * form opens with, the productivity lookup it shows per cycle and the
 * revenue estimate of its summary card.
 */
module PlotForm {

  import opened Wrappers
  import opened Entities
  import CycleCategoriesData

  /** What the form submits. */
  datatype PlotFormData = PlotFormData(
    number: int,
    area: real,
    currentCycle: int,
    plantingDate: Option<string>,
    status: string,
    soilType: Option<string>,
    notes: Option<string>)

  /** The status texts the schema's enum accepts. */
  const FORM_STATUSES: seq<string> := ["active", "reform", "rotation", "new"]

  /** `plotFormSchema`: number 1..999, area 0.1..100 ha, cycle 0..5 and a known status. */
  predicate ValidPlotForm(d: PlotFormData)
  {
    1 <= d.number <= 999 && 0.1 <= d.area <= 100.0 && 0 <= d.currentCycle <= 5 && d.status in FORM_STATUSES
  }

  /** The enum accepts exactly the texts that denote a plot status. */
  lemma FormStatusesAreStatuses(status: string)
    ensures status in FORM_STATUSES <==> Entities.ParseStatus(status).Some?
  {
    if status in FORM_STATUSES {
      assert status == "active" || status == "reform" || status == "rotation" || status == "new";
    }
  }

  /** The parts of a plot the form may be opened with (`Partial<Plot>`). */
  datatype InitialPlot = InitialPlot(
    number: Option<int>,
    area: Option<real>,
    currentCycle: Option<int>,
    plantingDate: Option<string>,
    status: Option<PlotStatus>,
    soilType: Option<string>,
    notes: Option<string>)

  /** Editing opens the form with a whole stored plot. */
  function FromPlot(p: Plot): InitialPlot
  {
    InitialPlot(Some(p.number), Some(p.area), Some(p.currentCycle), Some(p.plantingDate), Some(p.status), p.soilType, p.notes)
  }

  /** The values the form opens with; a number or area left empty is absent. */
  datatype PlotFormDefaults = PlotFormDefaults(
    number: Option<int>,
    area: Option<real>,
    currentCycle: int,
    plantingDate: string,
    status: PlotStatus,
    soilType: string,
    notes: string)

  function OrEmpty(s: Option<string>): string
  {
    if s.Some? then s.value else ""
  }

  /**
   * `defaultValues`: JavaScript's `||` turns 0 (and an empty date) into the
   * fallback. `isoDate` stands for `new Date(d).toISOString().split('T')[0]`.
   */
  function DefaultValues(init: Option<InitialPlot>, isoDate: string -> string): (v: PlotFormDefaults)
    ensures init.None? ==> v == PlotFormDefaults(None, None, 0, "", New, "", "")
    ensures v.status == New <==> init.None? || init.value.status.None? || init.value.status == Some(New)
    ensures v.currentCycle == 0 <==> init.None? || init.value.currentCycle.None? || init.value.currentCycle == Some(0)
    ensures v.number.Some? ==> v.number.value != 0
    ensures v.area.Some? ==> v.area.value != 0.0
  {
    match init
    case None => PlotFormDefaults(None, None, 0, "", New, "", "")
    case Some(i) =>
      PlotFormDefaults(
        if i.number.Some? && i.number.value != 0 then i.number else None,
        if i.area.Some? && i.area.value != 0.0 then i.area else None,
        if i.currentCycle.Some? && i.currentCycle.value != 0 then i.currentCycle.value else 0,
        if i.plantingDate.Some? && i.plantingDate.value != "" then isoDate(i.plantingDate.value) else "",
        if i.status.Some? then i.status.value else New,
        OrEmpty(i.soilType),
        OrEmpty(i.notes))
  }

  /** What submitting the form unchanged hands to the schema; nothing while a number field is empty. */
  function Submitted(v: PlotFormDefaults): (d: Option<PlotFormData>)
    ensures d.Some? <==> v.number.Some? && v.area.Some?
  {
    if v.number.Some? && v.area.Some? then
      Some(PlotFormData(v.number.value, v.area.value, v.currentCycle,
                        if v.plantingDate == "" then None else Some(v.plantingDate),
                        StatusName(v.status),
                        if v.soilType == "" then None else Some(v.soilType),
                        if v.notes == "" then None else Some(v.notes)))
    else None
  }

  /** A new plot's form cannot be submitted before a number and an area are typed. */
  lemma NewFormIncomplete(isoDate: string -> string)
    ensures Submitted(DefaultValues(None, isoDate)).None?
  {
  }

  /**
   * Editing a plot whose fields are in range opens a form that passes the
   * schema as it stands, with the plot's own number, area, cycle and status.
   */
  lemma EditingValidPlotOpensValid(p: Plot, isoDate: string -> string)
    requires 1 <= p.number <= 999 && 0.1 <= p.area <= 100.0 && 0 <= p.currentCycle <= 5
    ensures var d := Submitted(DefaultValues(Some(FromPlot(p)), isoDate));
      d.Some? && ValidPlotForm(d.value)
      && d.value.number == p.number && d.value.area == p.area
      && d.value.currentCycle == p.currentCycle && ParseStatus(d.value.status) == Some(p.status)
  {
    var d := Submitted(DefaultValues(Some(FromPlot(p)), isoDate)).value;
    StatusNameRoundTrip(p.status);
    FormStatusesAreStatuses(d.status);
  }

  /** `getExpectedProductivity`: t/ha per cycle, 0 for any cycle outside 0..5. */
  function FormExpectedProductivity(cycle: int): (r: real)
    ensures 0.0 <= r <= 110.0
    ensures !(1 <= cycle <= 5) ==> r == 0.0
  {
    if cycle == 1 then 110.0
    else if cycle == 2 then 100.0
    else if cycle == 3 then 90.0
    else if cycle == 4 then 85.0
    else if cycle == 5 then 80.0
    else 0.0
  }

  /** The form's productivity map agrees with the cycle reference table for every cycle. */
  lemma FormProductivityAgreesWithTable(cycle: int)
    ensures FormExpectedProductivity(cycle) == CycleCategoriesData.GetExpectedProductivity(cycle)
  {
    if 0 <= cycle <= 5 {
      var t := CycleCategoriesData.CYCLE_CATEGORIES;
      assert t[cycle].expectedProductivity == [0.0, 110.0, 100.0, 90.0, 85.0, 80.0][cycle];
    }
  }

  /** The summary's estimated revenue: expected tonnage times R$ 179.76 per tonne. */
  const REVENUE_PER_TONNE: real := 179.76

  function EstimatedRevenue(cycle: int, area: real): (r: real)
    ensures area >= 0.0 ==> r >= 0.0
    ensures area >= 0.0 ==> r <= 110.0 * REVENUE_PER_TONNE * area
  {
    FormExpectedProductivity(cycle) * area * REVENUE_PER_TONNE
  }

  /**
   * The summary card appears only while the area is non-zero
   * (`{watchedArea && …}`), and then shows the estimated revenue.
   */
  function SummaryRevenue(area: Option<real>, cycle: int): (r: Option<real>)
    ensures r.Some? <==> area.Some? && area.value != 0.0
    ensures r.Some? ==> r.value == EstimatedRevenue(cycle, area.value)
  {
    if area.Some? && area.value != 0.0 then Some(EstimatedRevenue(cycle, area.value)) else None
  }

  /**
   * For one hectare the estimate sits just under the table's standard
   * revenue: the table prices a tonne at a little more than R$ 179.76.
   */
  lemma EstimateJustUnderStandardRevenue(cycle: int)
    requires 0 <= cycle <= 5
    ensures 0.0 <= CycleCategoriesData.GetStandardRevenue(cycle) - EstimatedRevenue(cycle, 1.0) < 0.5
  {
    var t := CycleCategoriesData.CYCLE_CATEGORIES;
    assert t[cycle].standardRevenue == [0.0, 19774.02, 17976.38, 16178.75, 15279.93, 14381.11][cycle];
  }
}
