/**
 * The farm's money and yield formulas: budget, reform cost, ATR (total
 * recoverable sugar) revenue, expected productivity as a plot ages through its
 * cuts, reform ROI, profit, per-hectare figures, totals over harvests, a
 * month-by-month cash-flow projection and the break-even point.
 *
 * Arithmetic is exact. A JavaScript `NaN` (0 / 0) is `None`.
 */
module FinancialCalculations {

  import opened Wrappers
  import opened Entities
  import Seqs

  /** What is left of last season's revenue after personal needs, never negative. */
  function AvailableBudget(previousRevenue: real, personalNeeds: real): (r: real)
    ensures r >= 0.0
    ensures r >= previousRevenue - personalNeeds
    ensures r == previousRevenue - personalNeeds || r == 0.0
  {
    if previousRevenue - personalNeeds > 0.0 then previousRevenue - personalNeeds else 0.0
  }

  /** Reforming costs R$ 15,000 per hectare. */
  const REFORM_COST_PER_HECTARE: real := 15000.0

  function ReformCost(area: real): (r: real)
    ensures area >= 0.0 ==> r >= 0.0
  {
    area * REFORM_COST_PER_HECTARE
  }

  /** The cost of reforming two areas is the sum of their costs. */
  lemma ReformCostAdditive(a: real, b: real)
    ensures ReformCost(a + b) == ReformCost(a) + ReformCost(b)
  {
  }

  /**
   * Revenue of a harvest paid by ATR: tonnes of cane times 1000 kg times the
   * ATR percentage gives kilograms of sugar, paid at `pricePerKgAtr`.
   */
  function AtrRevenue(tonnage: real, atr: real, pricePerKgAtr: real): (r: real)
  {
    (tonnage * 1000.0 * (atr / 100.0)) * pricePerKgAtr
  }

  /** ATR revenue is 10 reais per tonne, per ATR point, per unit of price: it is linear in each argument. */
  lemma AtrRevenueLinear(tonnage: real, atr: real, price: real)
    ensures AtrRevenue(tonnage, atr, price) == 10.0 * tonnage * atr * price
    ensures AtrRevenue(tonnage, atr, price) + AtrRevenue(tonnage, atr, price)
            == AtrRevenue(2.0 * tonnage, atr, price)
  {
  }

  /** Yearly loss of productivity at each cut; the first two cuts lose nothing. */
  const DEGRADATION_RATES: seq<real> := [0.0, 0.0, 0.091, 0.10, 0.056, 0.059]

  /** The fraction of the baseline productivity left after `cycle` cuts: the product of (1 - rate) for cuts 1..cycle. */
  function RemainingFactor(cycle: int): real
    requires cycle < |DEGRADATION_RATES|
  {
    if cycle <= 0 then 1.0 else RemainingFactor(cycle - 1) * (1.0 - DEGRADATION_RATES[cycle])
  }

  /** The expected productivity of a plot in a cycle; 0 beyond the table's last cycle. */
  function ExpectedProductivity(baseLine: real, cycle: int): real
  {
    if cycle >= |DEGRADATION_RATES| then 0.0 else baseLine * RemainingFactor(cycle)
  }

  /** Computes the expected productivity by multiplying the degradation factors one cut at a time. */
  method CalculateExpectedProductivity(baseLine: real, cycle: int) returns (r: real)
    ensures r == ExpectedProductivity(baseLine, cycle)
  {
    if cycle >= |DEGRADATION_RATES| {
      return 0.0;
    }
    var totalDegradation := 1.0;
    var i := 1;
    while i <= cycle
      invariant 1 <= i
      invariant cycle >= 0 ==> i <= cycle + 1
      invariant cycle < 0 ==> i == 1
      invariant totalDegradation == RemainingFactor(i - 1)
    {
      totalDegradation := totalDegradation * (1.0 - DEGRADATION_RATES[i]);
      i := i + 1;
    }
    assert cycle <= 0 ==> RemainingFactor(cycle) == RemainingFactor(0);
    r := baseLine * totalDegradation;
  }

  /** Each remaining factor lies in (0, 1]. */
  lemma {:induction false} RemainingFactorBounds(cycle: int)
    requires cycle < |DEGRADATION_RATES|
    ensures 0.0 < RemainingFactor(cycle) <= 1.0
  {
    if cycle > 0 {
      RemainingFactorBounds(cycle - 1);
    }
  }

  /** The remaining factor never grows with age. */
  lemma {:induction false} RemainingFactorMonotone(c1: int, c2: int)
    requires c1 <= c2 < |DEGRADATION_RATES|
    ensures RemainingFactor(c2) <= RemainingFactor(c1)
    decreases c2 - c1
  {
    if c1 < c2 {
      RemainingFactorMonotone(c1, c2 - 1);
      if c2 > 0 {
        RemainingFactorBounds(c2 - 1);
      }
    }
  }

  /** Past the last tabulated cycle the expected productivity is 0. */
  lemma ExpectedProductivityBeyondTable(baseLine: real, cycle: int)
    requires cycle >= 6
    ensures ExpectedProductivity(baseLine, cycle) == 0.0
  {
  }

  /** New cane and first cut yield the baseline, because their rates are 0. */
  lemma ExpectedProductivityFirstCuts(baseLine: real)
    ensures ExpectedProductivity(baseLine, 0) == baseLine
    ensures ExpectedProductivity(baseLine, 1) == baseLine
  {
  }

  /** For a non-negative baseline, productivity lies in [0, baseline] and falls as the plot ages. */
  lemma ExpectedProductivityMonotone(baseLine: real, c1: int, c2: int)
    requires baseLine >= 0.0
    requires c1 <= c2
    ensures 0.0 <= ExpectedProductivity(baseLine, c2) <= ExpectedProductivity(baseLine, c1) <= baseLine
  {
    ExpectedProductivityBounds(baseLine, c1);
    ExpectedProductivityBounds(baseLine, c2);
    if c2 < |DEGRADATION_RATES| {
      ExpectedProductivityOrder(baseLine, c1, c2);
    }
  }

  lemma ExpectedProductivityBounds(baseLine: real, c: int)
    requires baseLine >= 0.0
    ensures 0.0 <= ExpectedProductivity(baseLine, c) <= baseLine
  {
    if c < |DEGRADATION_RATES| {
      RemainingFactorBounds(c);
      MulMonotone(baseLine, 0.0, RemainingFactor(c));
      MulMonotone(baseLine, RemainingFactor(c), 1.0);
    }
  }

  lemma ExpectedProductivityOrder(baseLine: real, c1: int, c2: int)
    requires baseLine >= 0.0
    requires c1 <= c2 < |DEGRADATION_RATES|
    ensures ExpectedProductivity(baseLine, c2) <= ExpectedProductivity(baseLine, c1)
  {
    RemainingFactorMonotone(c1, c2);
    MulMonotone(baseLine, RemainingFactor(c2), RemainingFactor(c1));
  }

  lemma MulMonotone(b: real, x: real, y: real)
    requires b >= 0.0 && x <= y
    ensures b * x <= b * y
  {
    assert b * y - b * x == b * (y - x);
  }

  /** The expected productivity of the reference 110 t/ha cane at each cycle. */
  lemma ExpectedProductivityTable()
    ensures ExpectedProductivity(110.0, 2) == 99.99
    ensures ExpectedProductivity(110.0, 3) == 89.991
    ensures ExpectedProductivity(110.0, 4) == 84.951504
    ensures ExpectedProductivity(110.0, 5) == 79.939365264
  {
  }

  /** Productivity of a freshly reformed plot (first cut). */
  const REFORMED_PRODUCTIVITY: real := 110.0

  /** Price per kg of ATR used when none is given. */
  const DEFAULT_PRICE_PER_KG_ATR: real := 1.212

  /**
   * The yearly return of reforming a plot, as a percentage of the reform cost.
   * None stands for NaN: a zero-area plot with something to gain divides 0 by 0.
   */
  function ReformRoi(plot: Plot, currentCycle: int, pricePerKgAtr: real): (r: Option<real>)
  {
    var gain := ProductivityGain(currentCycle);
    if gain <= 0.0 then Some(0.0)
    else if ReformCost(plot.area) == 0.0 then None
    else Some(AnnualRevenue(gain, plot.area, pricePerKgAtr) / ReformCost(plot.area) * 100.0)
  }

  /** What reforming a plot in `currentCycle` adds to its productivity. */
  function ProductivityGain(currentCycle: int): real
  {
    REFORMED_PRODUCTIVITY - ExpectedProductivity(110.0, currentCycle)
  }

  /** The yearly revenue of a productivity gain over an area. */
  function AnnualRevenue(gain: real, area: real, pricePerKgAtr: real): real
  {
    gain * area * pricePerKgAtr
  }

  /** Nothing is gained by reforming new cane or a first cut. */
  lemma ReformRoiFirstCuts(plot: Plot, pricePerKgAtr: real, currentCycle: int)
    requires currentCycle <= 1
    ensures ReformRoi(plot, currentCycle, pricePerKgAtr) == Some(0.0)
  {
    if currentCycle < 0 {
      assert RemainingFactor(currentCycle) == 1.0;
    }
  }

  /** For a plot of non-zero area the ROI does not depend on the area: it is gain × price / 150. */
  lemma ReformRoiIndependentOfArea(plot: Plot, currentCycle: int, pricePerKgAtr: real)
    requires plot.area != 0.0
    ensures ReformRoi(plot, currentCycle, pricePerKgAtr) == Some(AreaFreeRoi(currentCycle, pricePerKgAtr))
  {
    var gain := ProductivityGain(currentCycle);
    if gain > 0.0 {
      assert ReformCost(plot.area) == plot.area * 15000.0;
      CancelArea(gain, plot.area, pricePerKgAtr);
      assert ReformCost(plot.area) != 0.0;
      var v := AnnualRevenue(gain, plot.area, pricePerKgAtr) / ReformCost(plot.area) * 100.0;
      assert v == gain * pricePerKgAtr / 150.0;
      assert ReformRoi(plot, currentCycle, pricePerKgAtr) == Some(v);
      assert AreaFreeRoi(currentCycle, pricePerKgAtr) == gain * pricePerKgAtr / 150.0;
    }
  }

  /** The ROI of a reform with the area cancelled out: the gain's revenue per R$ 150. */
  function AreaFreeRoi(currentCycle: int, pricePerKgAtr: real): real
  {
    var gain := ProductivityGain(currentCycle);
    if gain <= 0.0 then 0.0 else gain * pricePerKgAtr / 150.0
  }

  /** The ROI is NaN exactly for a zero-area plot that would gain productivity. */
  lemma ReformRoiUndefined(plot: Plot, currentCycle: int, pricePerKgAtr: real)
    ensures ReformRoi(plot, currentCycle, pricePerKgAtr).None?
        <==> plot.area == 0.0 && ExpectedProductivity(110.0, currentCycle) < REFORMED_PRODUCTIVITY
  {
  }

  /** The area cancels out of revenue per reform cost. */
  lemma CancelArea(gain: real, area: real, price: real)
    requires area != 0.0
    ensures AnnualRevenue(gain, area, price) / ReformCost(area) * 100.0 == gain * price / 150.0
  {
    var q := gain * price;
    assert ReformCost(area) == area * 15000.0;
    assert gain * area * price == q * area;
    DivideOutArea(q, area);
    var num := AnnualRevenue(gain, area, price);
    var den := ReformCost(area);
    assert num == q * area;
    assert den == area * 15000.0;
    assert num / den == (q * area) / (area * 15000.0);
  }

  lemma DivideOutArea(q: real, a: real)
    requires a != 0.0
    ensures (q * a) / (a * 15000.0) * 100.0 == q / 150.0
  {
    assert (q * a) / (a * 15000.0) == q / 15000.0;
  }

  /** At the default price the ROI never reaches 1%: the gain is at most 110 t/ha, and 110 × 1.212 / 150 < 0.9. */
  lemma ReformRoiBelowOnePercent(plot: Plot, currentCycle: int)
    ensures var r := ReformRoi(plot, currentCycle, DEFAULT_PRICE_PER_KG_ATR);
      r.Some? ==> 0.0 <= r.value < 0.9
  {
    ExpectedProductivityMonotone(110.0, currentCycle, currentCycle);
    if plot.area != 0.0 {
      ReformRoiIndependentOfArea(plot, currentCycle, DEFAULT_PRICE_PER_KG_ATR);
    }
  }

  /** A simplified plot revenue: tonnage × area × 1.212. */
  function PlotRevenue(plot: Plot, production: Production): (r: real)
    ensures production.tonnage >= 0.0 && plot.area >= 0.0 ==> r >= 0.0
  {
    production.tonnage * plot.area * DEFAULT_PRICE_PER_KG_ATR
  }

  /** Optional deductions from a payment; a missing one counts as 0. */
  datatype Deductions = Deductions(inss: Option<real>, aplacana: Option<real>, other: Option<real>)

  const NoDeductions := Deductions(None, None, None)

  function TotalDeductions(d: Deductions): real
  {
    d.inss.GetOr(0.0) + d.aplacana.GetOr(0.0) + d.other.GetOr(0.0)
  }

  function NetProfit(revenue: real, costs: real, deductions: Deductions): (r: real)
    ensures r + costs + TotalDeductions(deductions) == revenue
  {
    revenue - costs - TotalDeductions(deductions)
  }

  /** Without deductions the net profit is revenue minus costs; non-negative deductions only lower it. */
  lemma NetProfitDeductions(revenue: real, costs: real, d: Deductions)
    requires d.inss.GetOr(0.0) >= 0.0 && d.aplacana.GetOr(0.0) >= 0.0 && d.other.GetOr(0.0) >= 0.0
    ensures NetProfit(revenue, costs, NoDeductions) == revenue - costs
    ensures NetProfit(revenue, costs, d) <= NetProfit(revenue, costs, NoDeductions)
  {
  }

  /** A total spread over an area, 0 for a non-positive area. */
  function PerHectare(total: real, area: real): (r: real)
    ensures area > 0.0 ==> r * area == total
    ensures area <= 0.0 ==> r == 0.0
  {
    if area > 0.0 then total / area else 0.0
  }

  function CostPerHectare(totalCost: real, area: real): (r: real)
    ensures area > 0.0 ==> r * area == totalCost
    ensures area <= 0.0 ==> r == 0.0
  {
    PerHectare(totalCost, area)
  }

  function ProductivityPerHectare(tonnage: real, area: real): (r: real)
    ensures area > 0.0 ==> r * area == tonnage
    ensures area <= 0.0 ==> r == 0.0
  {
    PerHectare(tonnage, area)
  }

  /** The mean ATR of the harvests, 0 for none. */
  function AverageAtr(productions: seq<Production>): (r: real)
    ensures |productions| == 0 ==> r == 0.0
    ensures |productions| > 0 ==> r * |productions| as real == Seqs.Sum(productions, (p: Production) => p.atr)
  {
    if |productions| == 0 then 0.0
    else Seqs.Sum(productions, (p: Production) => p.atr) / |productions| as real
  }

  /** The mean lies between the smallest and the largest bound of the values. */
  lemma AverageAtrBounds(productions: seq<Production>, lo: real, hi: real)
    requires |productions| > 0
    requires forall i :: 0 <= i < |productions| ==> lo <= productions[i].atr <= hi
    ensures lo <= AverageAtr(productions) <= hi
  {
    var n := |productions| as real;
    Seqs.SumBounds(productions, (p: Production) => p.atr, lo, hi);
    var s := Seqs.Sum(productions, (p: Production) => p.atr);
    var avg := AverageAtr(productions);
    assert avg * n == s;
    assert (avg - lo) * n >= 0.0;
    assert (hi - avg) * n >= 0.0;
  }

  function TotalRevenue(productions: seq<Production>): real
  {
    Seqs.Sum(productions, (p: Production) => p.revenue)
  }

  function TotalCosts(productions: seq<Production>): real
  {
    Seqs.Sum(productions, (p: Production) => p.costs)
  }

  /** Totals over two lists of harvests add up. */
  lemma TotalsAppend(a: seq<Production>, b: seq<Production>)
    ensures TotalRevenue(a + b) == TotalRevenue(a) + TotalRevenue(b)
    ensures TotalCosts(a + b) == TotalCosts(a) + TotalCosts(b)
  {
    Seqs.SumAppend(a, b, (p: Production) => p.revenue);
    Seqs.SumAppend(a, b, (p: Production) => p.costs);
  }

  /** One month of a cash-flow projection. */
  datatype CashFlowEntry = CashFlowEntry(month: int, revenue: real, expenses: real, balance: real)

  /** The balance after `k` months that each add `net` to `start`. */
  function BalanceAfter(start: real, net: real, k: nat): real
  {
    start + k as real * net
  }

  /** One more month adds one more monthly result. */
  lemma BalanceStep(start: real, net: real, k: nat)
    ensures BalanceAfter(start, net, k + 1) == BalanceAfter(start, net, k) + net
  {
    assert (k + 1) as real * net == k as real * net + net;
  }

  /** Projects the balance month by month, adding the monthly result each month. */
  method CashFlowProjection(currentBalance: real, monthlyRevenue: real, monthlyExpenses: real, months: int)
    returns (projection: seq<CashFlowEntry>)
    ensures |projection| == if months > 0 then months else 0
    ensures forall k :: 0 <= k < |projection| ==>
      projection[k] == CashFlowEntry(k + 1, monthlyRevenue, monthlyExpenses,
                                     BalanceAfter(currentBalance, monthlyRevenue - monthlyExpenses, k + 1))
  {
    var net := monthlyRevenue - monthlyExpenses;
    projection := [];
    var balance := currentBalance;
    var month := 1;
    while month <= months
      invariant 1 <= month
      invariant months >= 0 ==> month <= months + 1
      invariant months < 0 ==> month == 1
      invariant |projection| == month - 1
      invariant balance == BalanceAfter(currentBalance, net, month - 1)
      invariant forall k :: 0 <= k < |projection| ==>
        projection[k] == CashFlowEntry(k + 1, monthlyRevenue, monthlyExpenses, BalanceAfter(currentBalance, net, k + 1))
    {
      BalanceStep(currentBalance, net, month - 1);
      balance := balance + net;
      projection := projection + [CashFlowEntry(month, monthlyRevenue, monthlyExpenses, balance)];
      month := month + 1;
    }
  }

  /** The units to sell to cover fixed costs; 0 when each unit loses money or breaks even. */
  function BreakEvenPoint(fixedCosts: real, variableCostPerUnit: real, pricePerUnit: real): (r: real)
    ensures pricePerUnit - variableCostPerUnit > 0.0 ==> r * (pricePerUnit - variableCostPerUnit) == fixedCosts
    ensures pricePerUnit - variableCostPerUnit <= 0.0 ==> r == 0.0
  {
    var contributionMargin := pricePerUnit - variableCostPerUnit;
    if contributionMargin > 0.0 then fixedCosts / contributionMargin else 0.0
  }

  lemma BreakEvenExample()
    ensures BreakEvenPoint(1000.0, 8.0, 10.0) == 500.0
  {
  }

  /** Farm-wide figures. */
  datatype EfficiencyMetrics = EfficiencyMetrics(
    totalArea: real,
    totalProduction: real,
    averageProductivity: real,
    totalRevenue: real,
    totalCosts: real,
    profitMargin: real)

  function CalculateEfficiencyMetrics(plots: seq<Plot>, productions: seq<Production>): (m: EfficiencyMetrics)
    ensures m.totalArea == Seqs.Sum(plots, (p: Plot) => p.area)
    ensures m.totalProduction == Seqs.Sum(productions, (p: Production) => p.tonnage)
    ensures m.totalRevenue == TotalRevenue(productions) && m.totalCosts == TotalCosts(productions)
    ensures m.totalArea > 0.0 ==> m.averageProductivity * m.totalArea == m.totalProduction
    ensures m.totalArea <= 0.0 ==> m.averageProductivity == 0.0
    ensures m.totalRevenue > 0.0 ==> m.profitMargin * m.totalRevenue == (m.totalRevenue - m.totalCosts) * 100.0
    ensures m.totalRevenue <= 0.0 ==> m.profitMargin == 0.0
  {
    var totalArea := Seqs.Sum(plots, (p: Plot) => p.area);
    var totalProduction := Seqs.Sum(productions, (p: Production) => p.tonnage);
    var totalRevenue := TotalRevenue(productions);
    var totalCosts := TotalCosts(productions);
    EfficiencyMetrics(
      totalArea,
      totalProduction,
      if totalArea > 0.0 then totalProduction / totalArea else 0.0,
      totalRevenue,
      totalCosts,
      if totalRevenue > 0.0 then ((totalRevenue - totalCosts) / totalRevenue) * 100.0 else 0.0)
  }

  /** With non-negative costs the profit margin never exceeds 100%. */
  lemma ProfitMarginAtMostHundred(plots: seq<Plot>, productions: seq<Production>)
    requires forall i :: 0 <= i < |productions| ==> productions[i].costs >= 0.0
    ensures CalculateEfficiencyMetrics(plots, productions).profitMargin <= 100.0
  {
    Seqs.SumNonNegative(productions, (p: Production) => p.costs);
    var m := CalculateEfficiencyMetrics(plots, productions);
    if m.totalRevenue > 0.0 && m.profitMargin > 100.0 {
      assert m.profitMargin * m.totalRevenue > 100.0 * m.totalRevenue;
    }
  }
}
