/**
 * Heuristics for consolidating small plots and for ranking plots for reform:
 * pairing small plots with consecutive numbers, the savings such merges
 * would bring, a phased implementation plan, a per-plot priority score, an
 * optimal plot size derived from 5-hectare size classes, and a reform
 * priority list with its reasons.
 */
module OptimizationEngine {

  import opened Wrappers
  import opened Entities
  import Seqs
  import Sorting
  import Strings
  import FC = FinancialCalculations

  /** Plots under 5 ha count as inefficient. */
  const SMALL_PLOT_AREA: real := 5.0

  predicate IsSmall(p: Plot) { p.area < SMALL_PLOT_AREA }

  /** A group of plots that could be merged, and the size of the merged plot. */
  datatype Candidate = Candidate(plots: seq<Plot>, potentialSize: real)

  /** Adjacency is approximated by consecutive plot numbers. */
  predicate Adjacent(a: Plot, b: Plot) { a.number - b.number == 1 || b.number - a.number == 1 }

  function Pair(a: Plot, b: Plot): Candidate { Candidate([a, b], a.area + b.area) }

  // ---------------------------------------------------------------------------
  // Adjacent pairs

  /** The candidates pairing `ps[i]` with `ps[i+1..j]`, in order of the second plot. */
  function RowCandidates(ps: seq<Plot>, i: int, j: int): seq<Candidate>
    requires 0 <= i < |ps| && i < j <= |ps|
    decreases j
  {
    if j == i + 1 then []
    else RowCandidates(ps, i, j - 1) + (if Adjacent(ps[i], ps[j - 1]) then [Pair(ps[i], ps[j - 1])] else [])
  }

  /** The candidates whose first plot is one of `ps[..i]`, in order. */
  function CandidatesBefore(ps: seq<Plot>, i: int): seq<Candidate>
    requires 0 <= i <= |ps|
  {
    if i == 0 then [] else CandidatesBefore(ps, i - 1) + RowCandidates(ps, i - 1, |ps|)
  }

  /** Every pair (i < j) of adjacent plots, ordered by i and then by j. */
  function AdjacentCandidates(ps: seq<Plot>): seq<Candidate>
  {
    CandidatesBefore(ps, |ps|)
  }

  /** Scans all pairs i < j with two nested loops and collects the adjacent ones. */
  method FindAdjacentPlots(ps: seq<Plot>) returns (candidates: seq<Candidate>)
    ensures candidates == AdjacentCandidates(ps)
  {
    candidates := [];
    var i := 0;
    while i < |ps| - 1
      invariant 0 <= i <= |ps|
      invariant candidates == CandidatesBefore(ps, i)
    {
      var j := i + 1;
      while j < |ps|
        invariant i + 1 <= j <= |ps|
        invariant candidates == CandidatesBefore(ps, i) + RowCandidates(ps, i, j)
      {
        if Adjacent(ps[i], ps[j]) {
          candidates := candidates + [Pair(ps[i], ps[j])];
        }
        j := j + 1;
      }
      assert CandidatesBefore(ps, i + 1) == CandidatesBefore(ps, i) + RowCandidates(ps, i, |ps|);
      i := i + 1;
    }
    if |ps| > 0 {
      assert RowCandidates(ps, |ps| - 1, |ps|) == [];
      assert CandidatesBefore(ps, |ps|) == CandidatesBefore(ps, |ps| - 1);
    }
  }

  lemma {:induction false} RowCandidatesSound(ps: seq<Plot>, i: int, j: int)
    requires 0 <= i < |ps| && i < j <= |ps|
    ensures forall c :: c in RowCandidates(ps, i, j) ==>
      exists k :: i < k < j && Adjacent(ps[i], ps[k]) && c == Pair(ps[i], ps[k])
    decreases j
  {
    if j > i + 1 {
      RowCandidatesSound(ps, i, j - 1);
    }
  }

  lemma {:induction false} RowCandidatesComplete(ps: seq<Plot>, i: int, j: int)
    requires 0 <= i < |ps| && i < j <= |ps|
    ensures forall k :: i < k < j && Adjacent(ps[i], ps[k]) ==> Pair(ps[i], ps[k]) in RowCandidates(ps, i, j)
    decreases j
  {
    if j > i + 1 {
      RowCandidatesComplete(ps, i, j - 1);
    }
  }

  lemma {:induction false} CandidatesBeforeSound(ps: seq<Plot>, i: int)
    requires 0 <= i <= |ps|
    ensures forall c :: c in CandidatesBefore(ps, i) ==>
      exists a, b :: 0 <= a < b < |ps| && a < i && Adjacent(ps[a], ps[b]) && c == Pair(ps[a], ps[b])
  {
    if i > 0 {
      CandidatesBeforeSound(ps, i - 1);
      RowCandidatesSound(ps, i - 1, |ps|);
    }
  }

  lemma {:induction false} CandidatesBeforeComplete(ps: seq<Plot>, i: int)
    requires 0 <= i <= |ps|
    ensures forall a, b :: 0 <= a < b < |ps| && a < i && Adjacent(ps[a], ps[b]) ==>
      Pair(ps[a], ps[b]) in CandidatesBefore(ps, i)
  {
    if i > 0 {
      CandidatesBeforeComplete(ps, i - 1);
      RowCandidatesComplete(ps, i - 1, |ps|);
      var before, row := CandidatesBefore(ps, i - 1), RowCandidates(ps, i - 1, |ps|);
      assert CandidatesBefore(ps, i) == before + row;
      forall a, b | 0 <= a < b < |ps| && a < i && Adjacent(ps[a], ps[b])
        ensures Pair(ps[a], ps[b]) in before + row
      {
        if a < i - 1 {
          assert Pair(ps[a], ps[b]) in before;
        } else {
          assert Pair(ps[a], ps[b]) in row;
        }
      }
    }
  }

  /** The candidates are exactly the pairs `[ps[a], ps[b]]` with a < b whose numbers differ by one. */
  lemma AdjacentCandidatesExact(ps: seq<Plot>)
    ensures forall c :: c in AdjacentCandidates(ps) ==>
      exists a, b :: 0 <= a < b < |ps| && Adjacent(ps[a], ps[b]) && c == Pair(ps[a], ps[b])
    ensures forall a, b :: 0 <= a < b < |ps| && Adjacent(ps[a], ps[b]) ==> Pair(ps[a], ps[b]) in AdjacentCandidates(ps)
  {
    CandidatesBeforeSound(ps, |ps|);
    CandidatesBeforeComplete(ps, |ps|);
  }

  /** Candidates built from small plots join two small plots into less than 10 ha. */
  lemma SmallCandidates(ps: seq<Plot>)
    requires forall i :: 0 <= i < |ps| ==> IsSmall(ps[i])
    ensures forall c :: c in AdjacentCandidates(ps) ==>
      |c.plots| == 2 && IsSmall(c.plots[0]) && IsSmall(c.plots[1])
      && c.potentialSize == c.plots[0].area + c.plots[1].area && c.potentialSize < 10.0
  {
    AdjacentCandidatesExact(ps);
  }

  /** Candidates built from small plots are pairs of less than 10 ha. */
  lemma SmallPairs(ps: seq<Plot>)
    requires forall i :: 0 <= i < |ps| ==> IsSmall(ps[i])
    ensures var cs := AdjacentCandidates(ps);
      forall i :: 0 <= i < |cs| ==>
        |cs[i].plots| == 2 && cs[i] == Pair(cs[i].plots[0], cs[i].plots[1]) && cs[i].potentialSize < 10.0
  {
    var cs := AdjacentCandidates(ps);
    SmallCandidates(ps);
    forall i | 0 <= i < |cs|
      ensures |cs[i].plots| == 2 && cs[i] == Pair(cs[i].plots[0], cs[i].plots[1]) && cs[i].potentialSize < 10.0
    {
      assert cs[i] in cs;
    }
  }

  // ---------------------------------------------------------------------------
  // Savings

  const SAVINGS_PER_PLOT: real := 500.0
  const REVENUE_PER_HECTARE: real := 19000.0

  predicate NonEmptyGroups(cs: seq<Candidate>)
  {
    forall i :: 0 <= i < |cs| ==> |cs[i].plots| > 0
  }

  /** One merge saves 500 per plot eliminated plus 5% (10% above 10 ha) of the group's average revenue. */
  function CandidateSavings(c: Candidate): real
    requires |c.plots| > 0
  {
    var n := |c.plots|;
    var efficiencyGain := if c.potentialSize > 10.0 then 0.1 else 0.05;
    var averageRevenue := Seqs.Sum(c.plots, (p: Plot) => p.area * REVENUE_PER_HECTARE) / n as real;
    (n - 1) as real * SAVINGS_PER_PLOT + averageRevenue * efficiencyGain
  }

  /** The savings of the first candidates, added in order. */
  function TotalSavings(cs: seq<Candidate>): real
    requires NonEmptyGroups(cs)
  {
    if |cs| == 0 then 0.0 else TotalSavings(cs[..|cs| - 1]) + CandidateSavings(cs[|cs| - 1])
  }

  /** Adds up the savings of every candidate. */
  method CalculateConsolidationSavings(cs: seq<Candidate>) returns (totalSavings: real)
    requires NonEmptyGroups(cs)
    ensures totalSavings == TotalSavings(cs)
  {
    totalSavings := 0.0;
    var k := 0;
    while k < |cs|
      invariant 0 <= k <= |cs|
      invariant totalSavings == TotalSavings(cs[..k])
    {
      var candidate := cs[k];
      var numberOfPlots := |candidate.plots|;
      totalSavings := totalSavings + (numberOfPlots - 1) as real * SAVINGS_PER_PLOT;
      var efficiencyGain := if candidate.potentialSize > 10.0 then 0.1 else 0.05;
      var averageRevenue := Seqs.Sum(candidate.plots, (p: Plot) => p.area * REVENUE_PER_HECTARE) / numberOfPlots as real;
      totalSavings := totalSavings + averageRevenue * efficiencyGain;
      assert cs[..k + 1][..k] == cs[..k];
      k := k + 1;
    }
    assert cs[..|cs|] == cs;
  }

  /** A merge of two plots under 10 ha saves 500 + 475 per hectare. */
  lemma PairSavings(a: Plot, b: Plot)
    requires a.area + b.area <= 10.0
    ensures CandidateSavings(Pair(a, b)) == 500.0 + 475.0 * (a.area + b.area)
  {
    var f := (p: Plot) => p.area * REVENUE_PER_HECTARE;
    assert [a, b][..1] == [a];
    assert [a][..0] == [];
    assert Seqs.Sum([a], f) == a.area * 19000.0;
    assert Seqs.Sum([a, b], f) == Seqs.Sum([a], f) + b.area * 19000.0;
  }

  /** The projected savings of small-plot candidates: 500 + 475 per hectare of each merged plot. */
  lemma {:induction false} SmallCandidatesSavings(cs: seq<Candidate>)
    requires forall i :: 0 <= i < |cs| ==>
      |cs[i].plots| == 2 && cs[i] == Pair(cs[i].plots[0], cs[i].plots[1]) && cs[i].potentialSize < 10.0
    ensures NonEmptyGroups(cs)
    ensures TotalSavings(cs) == Seqs.Sum(cs, (c: Candidate) => 500.0 + 475.0 * c.potentialSize)
  {
    if |cs| > 0 {
      var last := cs[|cs| - 1];
      SmallCandidatesSavings(cs[..|cs| - 1]);
      PairSavings(last.plots[0], last.plots[1]);
    }
  }

  // ---------------------------------------------------------------------------
  // Current efficiency

  /** `Math.round`: the nearest integer, halves rounded up. */
  function Round(x: real): (r: int)
    ensures r as real - 0.5 <= x < r as real + 0.5
  {
    (x + 0.5).Floor
  }

  /** The share of plots of at least 5 ha, as a rounded percentage; None (NaN) for no plots. */
  function CurrentEfficiency(ps: seq<Plot>): (r: Option<int>)
    ensures r.None? <==> |ps| == 0
    ensures r.Some? ==> 0 <= r.value <= 100
  {
    if |ps| == 0 then None
    else
      var smallPlots := |Seqs.Filter(ps, IsSmall)|;
      var efficiency := ((|ps| - smallPlots) as real / |ps| as real) * 100.0;
      PercentBounds(|ps| - smallPlots, |ps|);
      Some(Round(efficiency))
  }

  lemma PercentBounds(k: int, n: int)
    requires 0 <= k <= n && n > 0
    ensures 0.0 <= (k as real / n as real) * 100.0 <= 100.0
  {
    assert k as real / n as real <= 1.0;
  }

  /** No small plot gives 100%; only small plots give 0%. */
  lemma CurrentEfficiencyExtremes(ps: seq<Plot>)
    requires |ps| > 0
    ensures (forall i :: 0 <= i < |ps| ==> !IsSmall(ps[i])) ==> CurrentEfficiency(ps) == Some(100)
    ensures (forall i :: 0 <= i < |ps| ==> IsSmall(ps[i])) ==> CurrentEfficiency(ps) == Some(0)
  {
    if forall i :: 0 <= i < |ps| ==> !IsSmall(ps[i]) {
      Seqs.FilterNone(ps, IsSmall);
      EfficiencyOfShare(ps, 0);
    }
    if forall i :: 0 <= i < |ps| ==> IsSmall(ps[i]) {
      Seqs.FilterAll(ps, IsSmall);
      EfficiencyOfShare(ps, |ps|);
    }
  }

  /** The rounded percentage when `small` of the plots are small and the share is all or nothing. */
  lemma EfficiencyOfShare(ps: seq<Plot>, small: int)
    requires |ps| > 0
    requires |Seqs.Filter(ps, IsSmall)| == small
    requires small == 0 || small == |ps|
    ensures CurrentEfficiency(ps) == Some(if small == 0 then 100 else 0)
  {
    var n := |ps| as real;
    if small == 0 {
      assert (|ps| - small) as real == n;
      assert n / n == 1.0;
      assert (n / n) * 100.0 == 100.0;
      assert Round(100.0) == 100;
    } else {
      assert (|ps| - small) as real == 0.0;
      assert (0.0 / n) * 100.0 == 0.0;
      assert Round(0.0) == 0;
    }
  }

  // ---------------------------------------------------------------------------
  // Priority score

  function AreaScore(area: real): int
  {
    if area < 2.0 then 40 else if area < 3.0 then 30 else if area < 5.0 then 20 else 0
  }

  function CycleScore(cycle: int): int
  {
    if cycle >= 4 then 30 else if cycle >= 2 then 20 else 0
  }

  function StatusScore(status: PlotStatus): int
  {
    if status == Reform then 50 else 0
  }

  /** A consolidation priority: smaller, older and reform plots first. */
  function PriorityScore(p: Plot): int
  {
    AreaScore(p.area) + CycleScore(p.currentCycle) + StatusScore(p.status)
  }

  /** Accumulates the score rule by rule. */
  method CalculatePriorityScore(p: Plot) returns (score: int)
    ensures score == PriorityScore(p)
    ensures 0 <= score <= 120
  {
    score := 0;
    if p.area < 2.0 {
      score := score + 40;
    } else if p.area < 3.0 {
      score := score + 30;
    } else if p.area < 5.0 {
      score := score + 20;
    }
    if p.currentCycle >= 4 {
      score := score + 30;
    } else if p.currentCycle >= 2 {
      score := score + 20;
    }
    if p.status == Reform {
      score := score + 50;
    }
  }

  /** The score lies in [0, 120]; 120 exactly for a tiny, old plot in reform. */
  lemma PriorityScoreRange(p: Plot)
    ensures 0 <= PriorityScore(p) <= 120
    ensures PriorityScore(p) == 120 <==> p.area < 2.0 && p.currentCycle >= 4 && p.status == Reform
  {
  }

  lemma PriorityScoreExample(p: Plot)
    requires p.area == 1.5 && p.currentCycle == 5 && p.status == Reform
    ensures PriorityScore(p) == 40 + 30 + 50
  {
  }

  // ---------------------------------------------------------------------------
  // Optimized structure

  /** A plot that may be merged with `target`: another plot, at most two numbers away, under 10 ha. */
  function Mergeable(target: Plot): Plot -> bool
  {
    (p: Plot) => p.id != target.id && -2 <= p.number - target.number <= 2 && p.area < 10.0
  }

  /** The ids of the first three plots that may be merged with `target`, in list order. */
  function MergeCandidates(target: Plot, all: seq<Plot>): (ids: seq<string>)
    ensures var pool := Seqs.Filter(all, Mergeable(target));
      |ids| == (if |pool| < 3 then |pool| else 3)
      && forall k :: 0 <= k < |ids| ==> ids[k] == pool[k].id
    ensures forall k :: 0 <= k < |ids| ==> ids[k] != target.id
    ensures forall k :: 0 <= k < |ids| ==>
      exists i :: 0 <= i < |all| && all[i].id == ids[k] && Mergeable(target)(all[i])
  {
    var pool := Seqs.Filter(all, Mergeable(target));
    var first := if |pool| < 3 then pool else pool[..3];
    var ids := Seqs.Map(first, (p: Plot) => p.id);
    assert forall k :: 0 <= k < |ids| ==> first[k] in all && Mergeable(target)(first[k]);
    ids
  }

  /** The recommendation for one small plot. */
  datatype StructureEntry = StructureEntry(
    plotId: string,
    recommendedSize: real,
    mergeCandidates: seq<string>,
    priorityScore: int)

  /** At least twice the plot, and at least 5 ha. */
  function RecommendedSize(area: real): (r: real)
    ensures r >= 5.0 && r >= 2.0 * area
    ensures r == 5.0 || r == 2.0 * area
  {
    if area * 2.0 > 5.0 then area * 2.0 else 5.0
  }

  /** The recommendation for plot `p`, with merge partners drawn from `all`. */
  function EntryFor(all: seq<Plot>, p: Plot): StructureEntry
  {
    StructureEntry(p.id, RecommendedSize(p.area), MergeCandidates(p, all), PriorityScore(p))
  }

  function Entry(all: seq<Plot>): Plot -> StructureEntry
  {
    (p: Plot) => EntryFor(all, p)
  }

  function EntryScore(e: StructureEntry): int { e.priorityScore }

  /** One entry per small plot, highest priority first; equal scores keep plot order. */
  function OptimizedStructure(all: seq<Plot>): seq<StructureEntry>
  {
    Sorting.Sort(Seqs.Map(Seqs.Filter(all, IsSmall), Entry(all)), Sorting.ByKeyDescending(EntryScore))
  }

  /** The structure has one entry per small plot, sorted by non-increasing score. */
  lemma OptimizedStructureSorted(all: seq<Plot>)
    ensures var r := OptimizedStructure(all);
      && |r| == |Seqs.Filter(all, IsSmall)|
      && multiset(r) == multiset(Seqs.Map(Seqs.Filter(all, IsSmall), Entry(all)))
      && (forall i, j :: 0 <= i < j < |r| ==> r[i].priorityScore >= r[j].priorityScore)
      && (forall k :: Seqs.Filter(r, Sorting.KeyIs(EntryScore, k))
                      == Seqs.Filter(Seqs.Map(Seqs.Filter(all, IsSmall), Entry(all)), Sorting.KeyIs(EntryScore, k)))
  {
    var entries := Seqs.Map(Seqs.Filter(all, IsSmall), Entry(all));
    Sorting.SortByKeyDescending(entries, EntryScore);
    Sorting.SortStableByKeyDescending(entries, EntryScore);
    assert var r := Sorting.Sort(entries, Sorting.ByKeyDescending(EntryScore));
      forall i, j :: 0 <= i < j < |r| ==> EntryScore(r[i]) >= EntryScore(r[j]);
  }

  /** Every entry belongs to a small plot and recommends at least 5 ha and at least twice that plot's area. */
  lemma OptimizedStructureEntries(all: seq<Plot>)
    ensures forall e :: e in OptimizedStructure(all) ==>
      exists p :: p in Seqs.Filter(all, IsSmall) && e == EntryFor(all, p) && IsSmall(p)
    ensures forall e :: e in OptimizedStructure(all) ==> e.recommendedSize >= 5.0
  {
    var small := Seqs.Filter(all, IsSmall);
    var entries := Seqs.Map(small, Entry(all));
    var r := Sorting.Sort(entries, Sorting.ByKeyDescending(EntryScore));
    assert r == OptimizedStructure(all);
    assert multiset(r) == multiset(entries);
    forall e | e in r
      ensures exists p :: p in small && e == EntryFor(all, p) && IsSmall(p)
      ensures e.recommendedSize >= 5.0
    {
      assert e in multiset(r);
      assert e in entries;
      var m :| 0 <= m < |entries| && entries[m] == e;
      assert small[m] in small && e == EntryFor(all, small[m]);
    }
  }

  // ---------------------------------------------------------------------------
  // Implementation plan

  /** One phase of the plan. */
  datatype PlanPhase = PlanPhase(phase: int, actions: seq<string>, cost: int, expectedRoi: real)

  const PHASE_1_ACTIONS: seq<string> :=
    ["Consolidar talhões em reforma", "Revisar limites das propriedades", "Atualizar sistema de irrigação"]
  const PHASE_2_ACTIONS: seq<string> :=
    ["Consolidar talhões pequenos", "Otimizar rotas de colheita", "Instalar novos pontos de água"]
  const PHASE_3_ACTIONS: seq<string> :=
    ["Consolidações finais", "Otimização geral do layout", "Implementação de melhorias tecnológicas"]

  /** Some plot of the group is in reform. */
  predicate HasReformPlot(c: Candidate)
  {
    exists k :: 0 <= k < |c.plots| && c.plots[k].status == Reform
  }

  /** Some plot of the group is under 3 ha. */
  predicate HasTinyPlot(c: Candidate)
  {
    exists k :: 0 <= k < |c.plots| && c.plots[k].area < 3.0
  }

  predicate IsMediumPriority(c: Candidate)
  {
    !HasReformPlot(c) && HasTinyPlot(c)
  }

  function Min(a: int, b: int): int { if a < b then a else b }

  /** Merges in phase 1: groups with a plot in reform, at most 3. */
  function HighPriorityCount(cs: seq<Candidate>): int
  {
    Min(|Seqs.Filter(cs, HasReformPlot)|, 3)
  }

  /** Merges in phase 2: other groups with a plot under 3 ha, at most 2. */
  function MediumPriorityCount(cs: seq<Candidate>): int
  {
    Min(|Seqs.Filter(cs, IsMediumPriority)|, 2)
  }

  /**
   * The plan for these merges: up to 3 reform merges at 25000 each, then up to 2
   * merges involving a plot under 3 ha at 20000 each, then the rest at 15000
   * each; a phase appears only when it has merges.
   */
  function PlannedPhases(cs: seq<Candidate>): seq<PlanPhase>
  {
    var k1 := HighPriorityCount(cs);
    var k2 := MediumPriorityCount(cs);
    var k3 := |cs| - k1 - k2;
    (if k1 > 0 then [PlanPhase(1, PHASE_1_ACTIONS, k1 * 25000, 0.25)] else [])
    + (if k2 > 0 then [PlanPhase(2, PHASE_2_ACTIONS, k2 * 20000, 0.18)] else [])
    + (if k3 > 0 then [PlanPhase(3, PHASE_3_ACTIONS, k3 * 15000, 0.12)] else [])
  }

  /** Builds the plan phase by phase; a phase appears only when it has merges. */
  method CreateImplementationPlan(cs: seq<Candidate>) returns (plan: seq<PlanPhase>)
    ensures plan == PlannedPhases(cs)
  {
    plan := [];
    var highPriorityMergers := Seqs.Filter(cs, HasReformPlot);
    if |highPriorityMergers| > 3 {
      highPriorityMergers := highPriorityMergers[..3];
    }
    if |highPriorityMergers| > 0 {
      plan := plan + [PlanPhase(1, PHASE_1_ACTIONS, |highPriorityMergers| * 25000, 0.25)];
    }
    var mediumPriorityMergers := Seqs.Filter(cs, IsMediumPriority);
    if |mediumPriorityMergers| > 2 {
      mediumPriorityMergers := mediumPriorityMergers[..2];
    }
    if |mediumPriorityMergers| > 0 {
      plan := plan + [PlanPhase(2, PHASE_2_ACTIONS, |mediumPriorityMergers| * 20000, 0.18)];
    }
    var remainingMergers := |cs| - |highPriorityMergers| - |mediumPriorityMergers|;
    if remainingMergers > 0 {
      plan := plan + [PlanPhase(3, PHASE_3_ACTIONS, remainingMergers * 15000, 0.12)];
    }
  }

  /** The phase counts: k1 <= 3, k2 <= 2, and the remaining count is never negative. */
  lemma PlanCounts(cs: seq<Candidate>)
    ensures 0 <= HighPriorityCount(cs) <= 3
    ensures 0 <= MediumPriorityCount(cs) <= 2
    ensures |cs| - HighPriorityCount(cs) - MediumPriorityCount(cs) >= 0
  {
    Seqs.FilterDisjointCount(cs, HasReformPlot, IsMediumPriority);
  }

  /** The plan's phases appear in order 1, 2, 3, each with a non-negative cost; no candidates, no plan. */
  lemma PlanShape(cs: seq<Candidate>, plan: seq<PlanPhase>)
    requires plan == PlannedPhases(cs)
    ensures forall i, j :: 0 <= i < j < |plan| ==> plan[i].phase < plan[j].phase
    ensures forall i :: 0 <= i < |plan| ==> 1 <= plan[i].phase <= 3 && plan[i].cost > 0
    ensures |cs| == 0 ==> plan == []
    ensures |plan| <= 3
  {
    PlanCounts(cs);
    if |cs| == 0 {
      Seqs.FilterNone(cs, HasReformPlot);
      Seqs.FilterNone(cs, IsMediumPriority);
    }
  }

  // ---------------------------------------------------------------------------
  // Whole analysis

  /** The result of analysing the plots for consolidation. */
  datatype OptimizationResult = OptimizationResult(
    currentEfficiency: Option<int>,
    optimizedStructure: seq<StructureEntry>,
    projectedSavings: real,
    implementationPlan: seq<PlanPhase>)

  /** Analyses consolidation of the small plots. */
  method AnalyzePlotConsolidation(plots: seq<Plot>) returns (result: OptimizationResult)
    ensures var small := Seqs.Filter(plots, IsSmall);
      var candidates := AdjacentCandidates(small);
      && result.currentEfficiency == CurrentEfficiency(plots)
      && result.optimizedStructure == OptimizedStructure(plots)
      && result.projectedSavings == Seqs.Sum(candidates, (c: Candidate) => 500.0 + 475.0 * c.potentialSize)
      && result.implementationPlan == PlannedPhases(candidates)
      && (forall i :: 0 <= i < |result.implementationPlan| ==> 1 <= result.implementationPlan[i].phase <= 3)
      && (|candidates| == 0 <==> result.implementationPlan == [])
  {
    var inefficientPlots := Seqs.Filter(plots, IsSmall);
    var consolidationCandidates := FindAdjacentPlots(inefficientPlots);
    SmallPairs(inefficientPlots);
    SmallCandidatesSavings(consolidationCandidates);
    var projectedSavings := CalculateConsolidationSavings(consolidationCandidates);
    var plan := CreateImplementationPlan(consolidationCandidates);
    PlanShape(consolidationCandidates, plan);
    PlanCounts(consolidationCandidates);
    result := OptimizationResult(CurrentEfficiency(plots), OptimizedStructure(plots), projectedSavings, plan);
  }

  // ---------------------------------------------------------------------------
  // Optimal plot size

  /** The lower bound of a plot's 5-hectare size class. */
  function SizeClass(area: real): int
  {
    (area / 5.0).Floor * 5
  }

  /** The number of plots in size class `k`. */
  function ClassCount(ps: seq<Plot>, k: int): nat
  {
    if |ps| == 0 then 0
    else ClassCount(ps[..|ps| - 1], k) + (if SizeClass(ps[|ps| - 1].area) == k then 1 else 0)
  }

  /** The total area of the plots in size class `k`. */
  function ClassArea(ps: seq<Plot>, k: int): real
  {
    if |ps| == 0 then 0.0
    else ClassArea(ps[..|ps| - 1], k) + (if SizeClass(ps[|ps| - 1].area) == k then ps[|ps| - 1].area else 0.0)
  }

  /** Taking one more plot adds it to its own size class and to no other. */
  lemma ClassStep(ps: seq<Plot>, i: nat)
    requires i < |ps|
    ensures forall k :: ClassCount(ps[..i + 1], k) == ClassCount(ps[..i], k) + (if SizeClass(ps[i].area) == k then 1 else 0)
    ensures forall k :: ClassArea(ps[..i + 1], k) == ClassArea(ps[..i], k) + (if SizeClass(ps[i].area) == k then ps[i].area else 0.0)
  {
    var prefix := ps[..i + 1];
    assert prefix[..|prefix| - 1] == ps[..i] && prefix[|prefix| - 1] == ps[i];
  }

  /** A JavaScript number that a division may produce. */
  datatype Ratio = Finite(value: real) | PlusInfinity | MinusInfinity | NotANumber

  /** `a / b` in IEEE terms, with exact finite values. */
  function Divide(a: real, b: real): Ratio
  {
    if b != 0.0 then Finite(a / b)
    else if a > 0.0 then PlusInfinity
    else if a < 0.0 then MinusInfinity
    else NotANumber
  }

  /** `x > y` on numbers: false whenever NaN is involved. */
  predicate Greater(x: Ratio, y: Ratio)
  {
    match (x, y)
    case (Finite(a), Finite(b)) => a > b
    case (Finite(_), MinusInfinity) => true
    case (PlusInfinity, Finite(_)) => true
    case (PlusInfinity, MinusInfinity) => true
    case _ => false
  }

  /** If x does not exceed y, and z exceeds y, then x does not exceed z. */
  lemma GreaterStep(x: Ratio, y: Ratio, z: Ratio)
    requires !Greater(x, y) && Greater(z, y)
    ensures !Greater(x, z)
  {
  }

  /** Size classes from 5 ha up with at least two plots take part in the choice. */
  predicate Qualifies(ps: seq<Plot>, k: int)
  {
    k >= 5 && ClassCount(ps, k) >= 2
  }

  /** The efficiency of a size class: hectares per plot per unit of operational cost. */
  function ClassEfficiency(ps: seq<Plot>, k: int, operationalCosts: real): Ratio
  {
    Divide(ClassArea(ps, k), ClassCount(ps, k) as real * operationalCosts)
  }

  /** One size class as the source's accumulator holds it. */
  datatype SizeBucket = SizeBucket(count: nat, totalArea: real)

  /** Groups the plots into 5-hectare classes, counting the plots and adding up the area of each. */
  method GroupBySizeClass(currentPlots: seq<Plot>) returns (buckets: map<int, SizeBucket>, maxClass: int)
    ensures forall k :: k in buckets <==> ClassCount(currentPlots, k) > 0
    ensures forall k :: k in buckets ==> buckets[k] == SizeBucket(ClassCount(currentPlots, k), ClassArea(currentPlots, k))
    ensures forall k :: ClassCount(currentPlots, k) > 0 ==> k <= maxClass
  {
    buckets := map[];
    maxClass := 0;
    var i := 0;
    while i < |currentPlots|
      invariant 0 <= i <= |currentPlots|
      invariant forall k :: k in buckets <==> ClassCount(currentPlots[..i], k) > 0
      invariant forall k :: k in buckets ==>
        buckets[k] == SizeBucket(ClassCount(currentPlots[..i], k), ClassArea(currentPlots[..i], k))
      invariant forall k :: ClassCount(currentPlots[..i], k) > 0 ==> k <= maxClass
    {
      var plot := currentPlots[i];
      var sizeClass := SizeClass(plot.area);
      ClassStep(currentPlots, i);
      if sizeClass !in buckets {
        ClassAreaOfEmptyClass(currentPlots[..i], sizeClass);
        buckets := buckets[sizeClass := SizeBucket(0, 0.0)];
      }
      buckets := buckets[sizeClass := SizeBucket(buckets[sizeClass].count + 1, buckets[sizeClass].totalArea + plot.area)];
      if sizeClass > maxClass {
        maxClass := sizeClass;
      }
      i := i + 1;
    }
    assert currentPlots[..i] == currentPlots;
  }

  /**
   * Walks the size classes in ascending order and keeps the first one of
   * strictly best efficiency; the recommendation is that class plus 5 ha, at
   * most 25 ha (10 ha when no class qualifies). `chosen` names the class kept.
   * Only classes from 5 ha up with two or more plots compete.
   */
  method CalculateOptimalPlotSize(currentPlots: seq<Plot>, operationalCosts: real, machineryCapacity: real)
    returns (r: int, ghost chosen: Option<int>)
    ensures 10 <= r <= 25
    ensures chosen.None? ==>
      && r == 10
      && forall k :: Qualifies(currentPlots, k) ==> !Greater(ClassEfficiency(currentPlots, k, operationalCosts), Finite(0.0))
    ensures chosen.Some? ==>
      var c := chosen.value;
      && Qualifies(currentPlots, c)
      && r == Min(c + 5, 25)
      && Greater(ClassEfficiency(currentPlots, c, operationalCosts), Finite(0.0))
      && (forall k :: Qualifies(currentPlots, k) ==>
            !Greater(ClassEfficiency(currentPlots, k, operationalCosts), ClassEfficiency(currentPlots, c, operationalCosts)))
      && (forall k :: Qualifies(currentPlots, k) && k < c ==>
            ClassEfficiency(currentPlots, k, operationalCosts) != ClassEfficiency(currentPlots, c, operationalCosts))
    ensures operationalCosts < 0.0 ==> r == 10
  {
    var buckets, maxClass := GroupBySizeClass(currentPlots);

    // Walk the classes in ascending order.
    var optimalSize := 10;
    var bestEfficiency := Finite(0.0);
    chosen := None;
    var k := 5;
    while k <= maxClass
      invariant 5 <= k
      invariant chosen.None? ==>
        && optimalSize == 10 && bestEfficiency == Finite(0.0)
        && forall q :: Qualifies(currentPlots, q) && q < k ==>
             !Greater(ClassEfficiency(currentPlots, q, operationalCosts), Finite(0.0))
      invariant chosen.Some? ==>
        var c := chosen.value;
        && Qualifies(currentPlots, c) && c < k
        && optimalSize == c + 5
        && bestEfficiency == ClassEfficiency(currentPlots, c, operationalCosts)
        && Greater(bestEfficiency, Finite(0.0))
        && (forall q :: Qualifies(currentPlots, q) && q < k ==>
              !Greater(ClassEfficiency(currentPlots, q, operationalCosts), bestEfficiency))
        && (forall q :: Qualifies(currentPlots, q) && q < c ==>
              ClassEfficiency(currentPlots, q, operationalCosts) != bestEfficiency)
    {
      if k in buckets && buckets[k].count >= 2 {
        assert buckets[k] == SizeBucket(ClassCount(currentPlots, k), ClassArea(currentPlots, k));
        var efficiency := Divide(buckets[k].totalArea, buckets[k].count as real * operationalCosts);
        assert efficiency == ClassEfficiency(currentPlots, k, operationalCosts);
        if Greater(efficiency, bestEfficiency) {
          forall q | Qualifies(currentPlots, q) && q < k
            ensures !Greater(ClassEfficiency(currentPlots, q, operationalCosts), efficiency)
          {
            GreaterStep(ClassEfficiency(currentPlots, q, operationalCosts), bestEfficiency, efficiency);
          }
          if chosen.Some? {
            GreaterStep(Finite(0.0), bestEfficiency, efficiency);
          }
          bestEfficiency := efficiency;
          optimalSize := k + 5;
          chosen := Some(k);
        }
      }
      k := k + 1;
    }
    r := Min(optimalSize, 25);
    if operationalCosts < 0.0 && chosen.Some? {
      ClassAreaNonNegative(currentPlots, chosen.value);
    }
  }

  /** A class without plots has no area. */
  lemma {:induction false} ClassAreaOfEmptyClass(ps: seq<Plot>, k: int)
    requires ClassCount(ps, k) == 0
    ensures ClassArea(ps, k) == 0.0
  {
    if |ps| > 0 {
      ClassAreaOfEmptyClass(ps[..|ps| - 1], k);
    }
  }

  /** A size class from 0 up holds non-negative area. */
  lemma {:induction false} ClassAreaNonNegative(ps: seq<Plot>, k: int)
    requires k >= 0
    ensures ClassArea(ps, k) >= 0.0
  {
    if |ps| > 0 {
      ClassAreaNonNegative(ps[..|ps| - 1], k);
    }
  }

  // ---------------------------------------------------------------------------
  // Reform priority

  /** One plot's reform assessment. */
  datatype ReformAssessment = ReformAssessment(plot: Plot, priority: int, reason: string)

  /** A rule that fired: the points it adds and the reason it gives. */
  datatype Rule = Rule(points: int, reason: string)

  const DEFAULT_REASON: string := "Avaliação padrão"

  /** Every rule adds points, and no reason reads like the default one (their second letters differ). */
  predicate ProperRule(r: Rule)
  {
    r.points > 0 && |r.reason| >= 2 && r.reason[1] != DEFAULT_REASON[1]
  }

  predicate ProperRules(rules: seq<Rule>)
  {
    forall i :: 0 <= i < |rules| ==> ProperRule(rules[i])
  }

  /** Old ratoons: 50 points from the fifth cut on, 30 at the fourth. */
  function AgeRules(p: Plot): (rules: seq<Rule>)
    ensures ProperRules(rules)
  {
    if p.currentCycle >= 5 then [Rule(50, "Fim do ciclo produtivo")]
    else if p.currentCycle >= 4 then [Rule(30, "Baixa produtividade")]
    else []
  }

  /** Small plots: 40 points under 2 ha, 20 under 5 ha. */
  function SizeRules(p: Plot): (rules: seq<Rule>)
    ensures ProperRules(rules)
  {
    if p.area < 2.0 then [Rule(40, "Talhão muito pequeno")]
    else if p.area < 5.0 then [Rule(20, "Talhão pequeno")]
    else []
  }

  /** Plots already marked for reform: 60 points. */
  function StatusRules(p: Plot): (rules: seq<Rule>)
    ensures ProperRules(rules)
  {
    if p.status == Reform then [Rule(60, "Já marcado para reforma")] else []
  }

  /** Reform return at the default ATR price: 25 points above 30, 10 above 15. */
  function ReturnRules(p: Plot): (rules: seq<Rule>)
    ensures ProperRules(rules)
  {
    var roi := FC.ReformRoi(p, p.currentCycle, FC.DEFAULT_PRICE_PER_KG_ATR);
    if roi.Some? && roi.value > 30.0 then [Rule(25, "Alto retorno esperado")]
    else if roi.Some? && roi.value > 15.0 then [Rule(10, "Retorno moderado")]
    else []
  }

  /** The rules that fire for a plot, in the order they are checked. */
  function FiredRules(p: Plot): (rules: seq<Rule>)
    ensures ProperRules(rules)
  {
    AgeRules(p) + SizeRules(p) + StatusRules(p) + ReturnRules(p)
  }

  function Points(rules: seq<Rule>): int
  {
    if |rules| == 0 then 0 else rules[0].points + Points(rules[1..])
  }

  function ReasonTexts(rules: seq<Rule>): seq<string>
  {
    Seqs.Map(rules, (r: Rule) => r.reason)
  }

  function Assess(p: Plot): ReformAssessment
  {
    var rules := FiredRules(p);
    var reasons := ReasonTexts(rules);
    ReformAssessment(p, Points(rules), if |reasons| == 0 then DEFAULT_REASON else Strings.Join(reasons, ", "))
  }

  function AssessmentPriority(a: ReformAssessment): int { a.priority }

  /** Every plot with its reform priority, highest first; equal priorities keep plot order. */
  function EvaluateReformPriority(plots: seq<Plot>): seq<ReformAssessment>
  {
    Sorting.Sort(Seqs.Map(plots, Assess), Sorting.ByKeyDescending(AssessmentPriority))
  }

  lemma {:induction false} PointsAppend(a: seq<Rule>, b: seq<Rule>)
    ensures Points(a + b) == Points(a) + Points(b)
  {
    if |a| == 0 {
      assert a + b == b;
    } else {
      assert (a + b)[1..] == a[1..] + b;
      PointsAppend(a[1..], b);
    }
  }

  lemma {:induction false} PointsPositive(rules: seq<Rule>)
    requires ProperRules(rules)
    ensures |rules| == 0 <==> Points(rules) == 0
    ensures Points(rules) >= 0
  {
    if |rules| > 0 {
      PointsPositive(rules[1..]);
    }
  }

  /** At the default ATR price neither return rule can fire, so a plot scores at most 50 + 40 + 60. */
  lemma ReturnRulesNeverFire(p: Plot)
    ensures ReturnRules(p) == []
    ensures FiredRules(p) == AgeRules(p) + SizeRules(p) + StatusRules(p)
    ensures 0 <= Assess(p).priority <= 150
  {
    FC.ReformRoiBelowOnePercent(p, p.currentCycle);
    var age, size, status := AgeRules(p), SizeRules(p), StatusRules(p);
    assert FiredRules(p) == age + size + status + [];
    assert age + size + status + [] == age + size + status;
    PointsAppend(age + size, status);
    PointsAppend(age, size);
  }

  /** The default reason is given exactly when no rule fired, that is, when the priority is 0. */
  lemma DefaultReasonIffNoRule(p: Plot)
    ensures Assess(p).reason == DEFAULT_REASON <==> Assess(p).priority == 0
    ensures Assess(p).priority == 0 <==> |FiredRules(p)| == 0
  {
    var rules := FiredRules(p);
    PointsPositive(rules);
    if |rules| > 0 {
      var reasons := ReasonTexts(rules);
      assert ProperRule(rules[0]);
      Strings.JoinStartsWithFirst(reasons, ", ");
      var j := Strings.Join(reasons, ", ");
      assert j[1] == j[..|reasons[0]|][1] == reasons[0][1];
    }
  }

  /** One assessment per plot, sorted by non-increasing priority. */
  lemma EvaluateReformPriorityProperties(plots: seq<Plot>)
    ensures var r := EvaluateReformPriority(plots);
      && |r| == |plots|
      && multiset(r) == multiset(Seqs.Map(plots, Assess))
      && (forall i, j :: 0 <= i < j < |r| ==> r[i].priority >= r[j].priority)
      && (forall k :: Seqs.Filter(r, Sorting.KeyIs(AssessmentPriority, k))
                      == Seqs.Filter(Seqs.Map(plots, Assess), Sorting.KeyIs(AssessmentPriority, k)))
  {
    var assessments := Seqs.Map(plots, Assess);
    Sorting.SortByKeyDescending(assessments, AssessmentPriority);
    Sorting.SortStableByKeyDescending(assessments, AssessmentPriority);
    assert var r := Sorting.Sort(assessments, Sorting.ByKeyDescending(AssessmentPriority));
      forall i, j :: 0 <= i < j < |r| ==> AssessmentPriority(r[i]) >= AssessmentPriority(r[j]);
  }
}
