/**
 * The demonstration farm: nineteen plots numbered 1 to 19, with the helpers
 * that add up their area and select them by status or by cycle.
 */
module SampleData {

  import opened Wrappers
  import opened Entities
  import Seqs

  const SAMPLE_PLOTS: seq<Plot> := [
    Plot("plot_1", 1, None, 1.29, 0, "2024-08-15", None, Reform, Some("Latossolo Vermelho"), Some("Talhão pequeno, candidato à consolidação"), None, None),
    Plot("plot_2", 2, None, 5.8, 0, "2024-08-20", None, Reform, Some("Latossolo Vermelho-Amarelo"), None, None, None),
    Plot("plot_3", 3, None, 11.51, 0, "2024-09-01", None, New, Some("Latossolo Vermelho"), None, None, None),
    Plot("plot_4", 4, None, 15.28, 3, "2021-08-15", Some("2024-06-15"), Active, Some("Argissolo Vermelho-Amarelo"), None, None, None),
    Plot("plot_5", 5, None, 17.04, 2, "2022-08-10", Some("2024-07-20"), Active, Some("Latossolo Vermelho"), None, None, None),
    Plot("plot_6", 6, None, 3.34, 0, "2024-09-05", None, New, Some("Latossolo Vermelho-Amarelo"), Some("Talhão pequeno, considerar consolidação futura"), None, None),
    Plot("plot_7", 7, None, 20.73, 0, "2024-08-25", None, Reform, Some("Latossolo Vermelho"), None, None, None),
    Plot("plot_8", 8, None, 0.48, 3, "2021-08-30", Some("2024-06-10"), Active, Some("Argissolo Vermelho"), Some("Talhão muito pequeno, prioridade alta para consolidação"), None, None),
    Plot("plot_9", 9, None, 5.7, 5, "2019-08-15", Some("2024-05-20"), Active, Some("Latossolo Vermelho-Amarelo"), Some("Fim do ciclo, programar reforma"), None, None),
    Plot("plot_10", 10, None, 5.73, 5, "2019-08-20", Some("2024-05-25"), Active, Some("Latossolo Vermelho-Amarelo"), Some("Fim do ciclo, programar reforma"), None, None),
    Plot("plot_11", 11, None, 8.45, 1, "2023-08-15", Some("2024-08-10"), Active, Some("Latossolo Vermelho"), None, None, None),
    Plot("plot_12", 12, None, 12.34, 4, "2020-09-01", Some("2024-07-15"), Active, Some("Argissolo Vermelho-Amarelo"), None, None, None),
    Plot("plot_13", 13, None, 9.87, 2, "2022-08-20", Some("2024-07-30"), Active, Some("Latossolo Vermelho"), None, None, None),
    Plot("plot_14", 14, None, 6.23, 3, "2021-09-10", Some("2024-06-25"), Active, Some("Latossolo Vermelho-Amarelo"), None, None, None),
    Plot("plot_15", 15, None, 14.56, 1, "2023-08-25", Some("2024-08-20"), Active, Some("Latossolo Vermelho"), None, None, None),
    Plot("plot_16", 16, None, 11.23, 4, "2020-08-15", Some("2024-07-10"), Active, Some("Argissolo Vermelho"), None, None, None),
    Plot("plot_17", 17, None, 7.89, 2, "2022-09-05", Some("2024-08-05"), Active, Some("Latossolo Vermelho-Amarelo"), None, None, None),
    Plot("plot_18", 18, None, 32.15, 3, "2021-08-10", Some("2024-06-30"), Active, Some("Latossolo Vermelho"), Some("Maior talhão da propriedade"), None, None),
    Plot("plot_19", 19, None, 13.47, 1, "2023-09-01", Some("2024-08-25"), Active, Some("Latossolo Vermelho"), None, None, None)
  ]

  function Area(p: Plot): real { p.area }

  /** The total area of the sample plots. */
  function CalculateTotalArea(): (total: real)
    ensures total == Seqs.Sum(SAMPLE_PLOTS, Area)
    ensures total == 203.09
    ensures total > 0.0
  {
    SampleTotal();
    SamplePlotsWellFormed();
    Seqs.SumBounds(SAMPLE_PLOTS, Area, 0.0, 40.0);
    SumPositive(SAMPLE_PLOTS);
    Seqs.Sum(SAMPLE_PLOTS, Area)
  }

  /** Summing the first `k` plots adds the `k`-th plot's area, `area`, to the sum of the first `k - 1`. */
  lemma SumStep(k: nat, area: real)
    requires 0 < k <= |SAMPLE_PLOTS| && SAMPLE_PLOTS[k - 1].area == area
    ensures Seqs.Sum(SAMPLE_PLOTS[..k], Area) == Seqs.Sum(SAMPLE_PLOTS[..k - 1], Area) + area
  {
    assert SAMPLE_PLOTS[..k][..k - 1] == SAMPLE_PLOTS[..k - 1];
  }

  /** The sample plots add up to 203.09 ha, one plot at a time. */
  lemma SampleTotal()
    ensures Seqs.Sum(SAMPLE_PLOTS, Area) == 203.09
  {
    assert Seqs.Sum(SAMPLE_PLOTS[..0], Area) == 0.0;
    SumStep(1, 1.29);
    assert Seqs.Sum(SAMPLE_PLOTS[..1], Area) == 1.29;
    SumStep(2, 5.8);
    assert Seqs.Sum(SAMPLE_PLOTS[..2], Area) == 7.09;
    SumStep(3, 11.51);
    assert Seqs.Sum(SAMPLE_PLOTS[..3], Area) == 18.60;
    SumStep(4, 15.28);
    assert Seqs.Sum(SAMPLE_PLOTS[..4], Area) == 33.88;
    SumStep(5, 17.04);
    assert Seqs.Sum(SAMPLE_PLOTS[..5], Area) == 50.92;
    SumStep(6, 3.34);
    assert Seqs.Sum(SAMPLE_PLOTS[..6], Area) == 54.26;
    SumStep(7, 20.73);
    assert Seqs.Sum(SAMPLE_PLOTS[..7], Area) == 74.99;
    SumStep(8, 0.48);
    assert Seqs.Sum(SAMPLE_PLOTS[..8], Area) == 75.47;
    SumStep(9, 5.7);
    assert Seqs.Sum(SAMPLE_PLOTS[..9], Area) == 81.17;
    SumStep(10, 5.73);
    assert Seqs.Sum(SAMPLE_PLOTS[..10], Area) == 86.90;
    SumStep(11, 8.45);
    assert Seqs.Sum(SAMPLE_PLOTS[..11], Area) == 95.35;
    SumStep(12, 12.34);
    assert Seqs.Sum(SAMPLE_PLOTS[..12], Area) == 107.69;
    SumStep(13, 9.87);
    assert Seqs.Sum(SAMPLE_PLOTS[..13], Area) == 117.56;
    SumStep(14, 6.23);
    assert Seqs.Sum(SAMPLE_PLOTS[..14], Area) == 123.79;
    SumStep(15, 14.56);
    assert Seqs.Sum(SAMPLE_PLOTS[..15], Area) == 138.35;
    SumStep(16, 11.23);
    assert Seqs.Sum(SAMPLE_PLOTS[..16], Area) == 149.58;
    SumStep(17, 7.89);
    assert Seqs.Sum(SAMPLE_PLOTS[..17], Area) == 157.47;
    SumStep(18, 32.15);
    assert Seqs.Sum(SAMPLE_PLOTS[..18], Area) == 189.62;
    SumStep(19, 13.47);
    assert Seqs.Sum(SAMPLE_PLOTS[..19], Area) == 203.09;
    assert SAMPLE_PLOTS[..19] == SAMPLE_PLOTS;
  }

  lemma {:induction false} SumPositive(ps: seq<Plot>)
    requires |ps| > 0 && forall i :: 0 <= i < |ps| ==> ps[i].area > 0.0
    ensures Seqs.Sum(ps, Area) > 0.0
  {
    Seqs.SumNonNegative(ps[..|ps| - 1], Area);
  }

  function StatusIs(status: string): Plot -> bool
  {
    (p: Plot) => StatusName(p.status) == status
  }

  function CycleIs(cycle: int): Plot -> bool
  {
    (p: Plot) => p.currentCycle == cycle
  }

  /** The plots of `ps` whose status text is `status`, in order. */
  function WithStatus(ps: seq<Plot>, status: string): (r: seq<Plot>)
    ensures forall i :: 0 <= i < |r| ==> r[i] in ps && StatusName(r[i].status) == status
    ensures forall i :: 0 <= i < |ps| && StatusName(ps[i].status) == status ==> ps[i] in r
  {
    Seqs.Filter(ps, StatusIs(status))
  }

  /** The plots of `ps` at cycle `cycle`, in order. */
  function WithCycle(ps: seq<Plot>, cycle: int): (r: seq<Plot>)
    ensures forall i :: 0 <= i < |r| ==> r[i] in ps && r[i].currentCycle == cycle
    ensures forall i :: 0 <= i < |ps| && ps[i].currentCycle == cycle ==> ps[i] in r
  {
    Seqs.Filter(ps, CycleIs(cycle))
  }

  /** The sample plots whose status text is `status`. */
  function GetPlotsByStatus(status: string): seq<Plot>
  {
    WithStatus(SAMPLE_PLOTS, status)
  }

  /** The sample plots at cycle `cycle`. */
  function GetPlotsByCycle(cycle: int): seq<Plot>
  {
    WithCycle(SAMPLE_PLOTS, cycle)
  }

  /** Nineteen plots numbered 1..19. */
  lemma SamplePlotsNumbered()
    ensures |SAMPLE_PLOTS| == 19
    ensures forall i :: 0 <= i < |SAMPLE_PLOTS| ==> SAMPLE_PLOTS[i].number == i + 1
  {
  }

  /** Every sample area lies in (0, 40] and every cycle in 0..5. */
  lemma SamplePlotsInRange()
    ensures forall i :: 0 <= i < |SAMPLE_PLOTS| ==> 0.0 < SAMPLE_PLOTS[i].area <= 40.0
    ensures forall i :: 0 <= i < |SAMPLE_PLOTS| ==> 0 <= SAMPLE_PLOTS[i].currentCycle <= 5
  {
  }

  /** No two sample plots share an id. */
  lemma SampleIdsDistinct()
    ensures Seqs.NoDuplicates(Seqs.Map(SAMPLE_PLOTS, (p: Plot) => p.id))
  {
  }

  /** Nineteen plots numbered 1..19 with distinct ids, positive areas and cycles 0..5. */
  lemma SamplePlotsWellFormed()
    ensures |SAMPLE_PLOTS| == 19
    ensures forall i :: 0 <= i < |SAMPLE_PLOTS| ==> SAMPLE_PLOTS[i].number == i + 1
    ensures forall i :: 0 <= i < |SAMPLE_PLOTS| ==> 0.0 < SAMPLE_PLOTS[i].area <= 40.0
    ensures forall i :: 0 <= i < |SAMPLE_PLOTS| ==> 0 <= SAMPLE_PLOTS[i].currentCycle <= 5
    ensures Seqs.NoDuplicates(Seqs.Map(SAMPLE_PLOTS, (p: Plot) => p.id))
  {
    SamplePlotsNumbered();
    SamplePlotsInRange();
    SampleIdsDistinct();
  }
}
