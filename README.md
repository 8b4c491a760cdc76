# Sugar-cane farm manager: a verified model of its core

The application keeps the records of a sugar-cane plantation: land plots (*talhões*)
numbered 1, 2, …, the production cycle each plot is in (reform, then the first to the
fifth cut), categories that group the plots of one cycle, harvests with their tonnage and
ATR (total recoverable sugar), soil-preparation plans made of ordered product applications,
and a catalogue of agricultural input products. On top of these records it computes
financial projections and consolidation/reform recommendations, holds screen state in two
Redux slices, and offers forms whose schemas bound what a user may enter.

This Dafny project models that core, file by file:

| Dafny file | models |
|---|---|
| `financial_calculations.dfy` | `src/services/FinancialCalculations.ts`: budget, reform cost, ATR revenue, yield decline by cut, reform ROI, net profit, per-hectare and average figures, cash-flow projection (a loop), break-even point, efficiency metrics |
| `optimization_engine.dfy` | `src/services/OptimizationEngine.ts`: pairing of small adjacent plots (nested loops), merge savings, phased plan, priority score, optimal plot size, reform priority list |
| `cycle_categories_data.dfy` | `src/constants/cycleCategoriesData.ts`: the cycle reference table and its four lookups, agreeing with the seed rows of `src/database/schema.ts` |
| `category_utils.dfy` | `src/utils/categoryUtils.ts`: a plot's category, its category-derived cycle, unassigned plots |
| `formatters.dfy`, `sample_data.dfy` | the label/colour maps, truncation and capitalisation, the productivity area guard; the sample plots and their filters |
| `database.dfy` | the embedded database: one `seq` of rows per table in the class `Tables.Database`, which every repository method changes through `modifies` frames naming only the tables the SQL touches |
| `plot_repository.dfy`, `production_repository.dfy`, `category_repository.dfy`, `soil_preparation_repository.dfy`, `product_repository.dfy` | the repositories under `src/database/models/`: each SQL statement as a method or function on those sequences, row mapping, ordering, partial updates |
| `sql.dfy` | the shared shape of the partial-update builders: `fields.push('c = ?'); values.push(v)` per supplied field, the rendered `UPDATE … SET … WHERE id = ?` and its placeholders |
| `plots_slice.dfy`, `productions_slice.dfy`, `slice_lists.dfy` | the Redux slices as classes whose fields are the slice state, one method per reducer case; the in-place list edits they share |
| `category_form_screen.dfy`, `plot_form.dfy`, `product_registration_form.dfy` | the schemas as predicates, the default values, plot selection with conflict detection and "move", and the summary and visibility expressions of the forms |
| `entities.dfy`, `wrappers.dfy`, `seqs.dfy`, `sorting.dfy`, `strings.dfy` | the entity types of `src/types/entities.ts`; `Option`; filters, sums and their lemmas; a stable sort by a key (JavaScript's `sort` and SQL `ORDER BY`); lexicographic string order and the small string helpers |

Conventions of the model:

- Areas, money and rates are `real`, computed exactly. A JavaScript `NaN` (0 / 0) is `None`.
- Plot numbers and cycles are `int`.
- Generated ids and the clock (`Date.now()`, `Math.random()`, `new Date()`) are parameters of the methods that use them.
- JSON columns hold the list itself: `JSON.stringify` and `JSON.parse` are the identity.
- `ORDER BY` sorts stably, so rows that tie stay in table order (`Sorting.SortStable`: the rows that tie with each other come out in the order they went in).
- `LIKE '%t%'` is SQLite's pattern match: `%` matches any run of characters, `_` any one character, and ASCII letters match either case. For a term without wildcards it is a case-folded substring test (`Strings.LikeAnywhereLiteral`).
- JavaScript's `x || fallback` and `x || null` are written out: 0, `""` and `undefined` all take the fallback.
- The user's answer to a confirmation `Alert` is a `bool` parameter.
- A thunk's outcome reaches a slice as the payload or error message of the reducer case.

Two notions of a plot's cycle are kept apart, as the source keeps them: the stored
`current_cycle` column (`PlotRepository`) and the cycle of the category the plot is
assigned to (`CategoryUtils.GetPlotCycle`); `CategoryUtils.CategoryCycleIsNotStoredCycle`
shows that they can differ.

## Model

| member | source | states |
|---|---|---|
| FinancialCalculations.AvailableBudget | src/services/FinancialCalculations.ts:4-6 | The budget is last revenue minus personal needs, floored at 0: never negative and never below the difference |
| FinancialCalculations.ReformCost | src/services/FinancialCalculations.ts:8-10 | Reform cost (R$ 15 000 per hectare) is non-negative for a non-negative area |
| FinancialCalculations.ReformCostAdditive | src/services/FinancialCalculations.ts:8-10 | Reforming two areas costs the sum of reforming each |
| FinancialCalculations.AtrRevenue | src/services/FinancialCalculations.ts:12-15 | Tonnes to kilograms of ATR at the given percentage, times the price per kilogram; its closed form and linearity are `AtrRevenueLinear` |
| FinancialCalculations.AtrRevenueLinear | src/services/FinancialCalculations.ts:12-15 | ATR revenue equals 10 × tonnage × ATR × price (kg of ATR per tonne divided by 100) and doubles when the tonnage doubles |
| FinancialCalculations.CalculateExpectedProductivity | src/services/FinancialCalculations.ts:17-30 | The loop multiplying the remaining factor cut by cut returns the closed-form expected productivity |
| FinancialCalculations.RemainingFactorBounds | src/services/FinancialCalculations.ts:17-29 | The product of (1 − rate) over the cuts so far lies in (0, 1] |
| FinancialCalculations.RemainingFactorMonotone | src/services/FinancialCalculations.ts:17-29 | The remaining factor never grows from one cycle to a later one |
| FinancialCalculations.ExpectedProductivityBeyondTable | src/services/FinancialCalculations.ts:21 | A cycle past the degradation table yields 0 |
| FinancialCalculations.ExpectedProductivityFirstCuts | src/services/FinancialCalculations.ts:18-29 | New cane and the first cut yield the baseline unchanged |
| FinancialCalculations.ExpectedProductivityMonotone | src/services/FinancialCalculations.ts:17-30 | For a non-negative baseline productivity stays within [0, baseline] and falls as the plot ages |
| FinancialCalculations.ExpectedProductivityBounds | src/services/FinancialCalculations.ts:17-30 | For a non-negative baseline the expected productivity lies in [0, baseline] |
| FinancialCalculations.ExpectedProductivityOrder | src/services/FinancialCalculations.ts:17-30 | Within the table an older cycle never yields more |
| FinancialCalculations.ExpectedProductivityTable | src/services/FinancialCalculations.ts:18-29 | The exact productivity of 110 t/ha cane at cycles 2 to 5 (99.99, 89.991, 84.951504, 79.939365264) |
| FinancialCalculations.ReformRoi | src/services/FinancialCalculations.ts:32-44 | The reform ROI in percent, 0 without a productivity gain and NaN (None) for a zero-area plot with a gain; its properties are the `ReformRoi…` lemmas below |
| FinancialCalculations.ReformRoiFirstCuts | src/services/FinancialCalculations.ts:36-38 | The ROI is exactly 0 for cycles 0 and 1, where reform gains nothing |
| FinancialCalculations.ReformRoiIndependentOfArea | src/services/FinancialCalculations.ts:32-44 | For a plot of non-zero area the ROI is gain × price / 150, independent of the area |
| FinancialCalculations.ReformRoiUndefined | src/services/FinancialCalculations.ts:40-43 | The ROI is NaN (0/0) exactly for a zero-area plot in a cycle that would gain productivity |
| FinancialCalculations.CancelArea | src/services/FinancialCalculations.ts:40-43 | Revenue over reform cost, in percent, does not depend on the area |
| FinancialCalculations.ReformRoiBelowOnePercent | src/services/FinancialCalculations.ts:32-44 | At the default price of 1.212 the ROI is always below 1% |
| FinancialCalculations.PlotRevenue | src/services/FinancialCalculations.ts:46-48 | The simplified plot revenue is non-negative for non-negative tonnage and area |
| FinancialCalculations.NetProfit | src/services/FinancialCalculations.ts:50-53 | Net profit plus costs plus the deductions (missing ones count 0) is the revenue |
| FinancialCalculations.NetProfitDeductions | src/services/FinancialCalculations.ts:50-53 | Without deductions net profit is revenue minus costs; non-negative deductions only lower it |
| FinancialCalculations.PerHectare | src/services/FinancialCalculations.ts:55-61 | A total per hectare, which times the area gives the total back; 0 for a non-positive area |
| FinancialCalculations.CostPerHectare | src/services/FinancialCalculations.ts:55-57 | Cost per hectare times the area is the total cost; 0 for a non-positive area |
| FinancialCalculations.ProductivityPerHectare | src/services/FinancialCalculations.ts:59-61 | Tonnes per hectare times the area is the tonnage; 0 for a non-positive area |
| FinancialCalculations.AverageAtr | src/services/FinancialCalculations.ts:63-68 | The mean ATR times the count is the sum of ATRs; 0 for no harvests |
| FinancialCalculations.AverageAtrBounds | src/services/FinancialCalculations.ts:63-68 | The mean ATR lies between any lower and upper bound of the harvests' ATRs |
| FinancialCalculations.TotalRevenue | src/services/FinancialCalculations.ts:70-72 | The sum of the harvests' revenues; additivity is `TotalsAppend` |
| FinancialCalculations.TotalCosts | src/services/FinancialCalculations.ts:74-76 | The sum of the harvests' costs; additivity is `TotalsAppend` |
| FinancialCalculations.TotalsAppend | src/services/FinancialCalculations.ts:70-76 | Total revenue and total costs add up over two lists of harvests |
| FinancialCalculations.CashFlowProjection | src/services/FinancialCalculations.ts:78-98 | One entry per month (none for a non-positive count), month k's balance being `BalanceAfter`: the start plus k+1 monthly results (revenue minus expenses) |
| FinancialCalculations.BreakEvenPoint | src/services/FinancialCalculations.ts:100-103 | Break-even units times the unit margin is the fixed cost; 0 when the unit margin is not positive |
| FinancialCalculations.BreakEvenExample | src/services/FinancialCalculations.ts:100-103 | Fixed costs 1000 with margin 2 per unit break even at 500 units |
| FinancialCalculations.CalculateEfficiencyMetrics | src/services/FinancialCalculations.ts:105-126 | Totals are the sums over plots and harvests; average productivity and profit margin are the quotients, 0 when the divisor is not positive |
| FinancialCalculations.ProfitMarginAtMostHundred | src/services/FinancialCalculations.ts:105-126 | With non-negative costs the profit margin never exceeds 100% |
| OptimizationEngine.FindAdjacentPlots | src/services/OptimizationEngine.ts:18-38 | The nested loops return exactly the pair list the specification function builds, in loop order |
| OptimizationEngine.RowCandidatesSound | src/services/OptimizationEngine.ts:23-34 | Every pair the inner loop emits for plot i joins it to a later plot whose number differs by one |
| OptimizationEngine.RowCandidatesComplete | src/services/OptimizationEngine.ts:23-34 | The inner loop emits a pair for every later plot adjacent to plot i |
| OptimizationEngine.CandidatesBeforeSound | src/services/OptimizationEngine.ts:22-35 | After i outer steps every pair joins an earlier and a later adjacent plot |
| OptimizationEngine.CandidatesBeforeComplete | src/services/OptimizationEngine.ts:22-35 | After i outer steps every adjacent pair with its first plot before i is listed |
| OptimizationEngine.AdjacentCandidatesExact | src/services/OptimizationEngine.ts:18-38 | The candidates are exactly the pairs [a, b], a before b, whose numbers differ by one |
| OptimizationEngine.SmallCandidates | src/services/OptimizationEngine.ts:5-38 | Candidates among small plots are two small plots whose joint size is their summed area, under 10 ha |
| OptimizationEngine.SmallPairs | src/services/OptimizationEngine.ts:5-38 | Each candidate among small plots is a two-plot pair of under 10 ha |
| OptimizationEngine.CalculateConsolidationSavings | src/services/OptimizationEngine.ts:40-58 | The accumulating loop returns the sum over candidates of 500 per merged plot plus 5% or 10% of mean revenue |
| OptimizationEngine.PairSavings | src/services/OptimizationEngine.ts:47-54 | A pair of at most 10 ha saves 500 + 475 × its size (5% of R$ 19 000/ha averaged over two plots) |
| OptimizationEngine.SmallCandidatesSavings | src/services/OptimizationEngine.ts:40-58 | For pairs under 10 ha the total saving is the sum of 500 + 475 × size |
| OptimizationEngine.Round | src/services/OptimizationEngine.ts:65 | `Math.round` gives the integer within half a unit, halves rounding up |
| OptimizationEngine.CurrentEfficiency | src/services/OptimizationEngine.ts:60-66 | Efficiency is undefined (NaN) for no plots and otherwise a whole percentage in [0, 100] |
| OptimizationEngine.PercentBounds | src/services/OptimizationEngine.ts:63 | A share of k out of n plots, in percent, lies in [0, 100] |
| OptimizationEngine.CurrentEfficiencyExtremes | src/services/OptimizationEngine.ts:60-66 | No small plot gives 100%, only small plots give 0% |
| OptimizationEngine.EfficiencyOfShare | src/services/OptimizationEngine.ts:60-66 | With none or all of the plots small, efficiency is 100 or 0 |
| OptimizationEngine.CalculatePriorityScore | src/services/OptimizationEngine.ts:91-107 | The score accumulated rule by rule equals the sum of the area, cycle and status scores, and lies in [0, 120] |
| OptimizationEngine.PriorityScoreRange | src/services/OptimizationEngine.ts:91-107 | The score lies in [0, 120], and is 120 exactly for a reform plot under 2 ha at cycle 4 or later |
| OptimizationEngine.PriorityScoreExample | src/services/OptimizationEngine.ts:91-107 | A 1.5 ha reform plot at cycle 5 scores 40 + 30 + 50 |
| OptimizationEngine.MergeCandidates | src/services/OptimizationEngine.ts:80-89 | The ids of the first three other plots within two numbers of the target and under 10 ha, in list order; never the target |
| OptimizationEngine.RecommendedSize | src/services/OptimizationEngine.ts:73 | The recommended size is the larger of 5 ha and twice the area |
| OptimizationEngine.OptimizedStructure | src/services/OptimizationEngine.ts:68-78 | One entry per small plot, sorted by descending priority score; proved in `OptimizedStructureSorted` and `OptimizedStructureEntries` |
| OptimizationEngine.OptimizedStructureSorted | src/services/OptimizationEngine.ts:68-78 | One entry per small plot, a permutation of the mapped entries, sorted by non-increasing score; entries with equal scores keep the plots' order |
| OptimizationEngine.OptimizedStructureEntries | src/services/OptimizationEngine.ts:68-78 | Each entry is the recommendation of some small plot and recommends at least 5 ha |
| OptimizationEngine.CreateImplementationPlan | src/services/OptimizationEngine.ts:109-170 | Phases 1, 2, 3 appear iff their counts (reform pairs up to 3, other pairs with a plot under 3 ha up to 2, the rest) are positive, costing 25 000, 20 000 and 15 000 each |
| OptimizationEngine.PlanCounts | src/services/OptimizationEngine.ts:115-154 | At most 3 high and 2 medium mergers, and the remaining count is never negative |
| OptimizationEngine.PlanShape | src/services/OptimizationEngine.ts:109-170 | Phases ascend strictly within 1..3 with positive costs; no candidates means no plan; at most three phases |
| OptimizationEngine.AnalyzePlotConsolidation | src/services/OptimizationEngine.ts:5-16 | Efficiency and structure of all plots; savings and the three-phase plan (`PlannedPhases`) of exactly the small plots' adjacent pairs; the plan is empty iff there are no candidates |
| OptimizationEngine.ClassStep | src/services/OptimizationEngine.ts:178-186 | Adding one plot adds one to its 5 ha class's count and its area to that class's total, and changes no other class |
| OptimizationEngine.GreaterStep | src/services/OptimizationEngine.ts:197 | The "strictly better" comparison chains: not better than y and z better than y gives not better than z |
| OptimizationEngine.GroupBySizeClass | src/services/OptimizationEngine.ts:178-186 | The reduce yields exactly the non-empty 5 ha classes, each with its plot count and total area |
| OptimizationEngine.CalculateOptimalPlotSize | src/services/OptimizationEngine.ts:172-205 | The result lies in [10, 25]: the first strictly best qualifying class (from 5 ha, two or more plots) plus 5, capped at 25, or 10 when none beats 0 |
| OptimizationEngine.ClassAreaOfEmptyClass | src/services/OptimizationEngine.ts:178-186 | A class with no plots has total area 0 |
| OptimizationEngine.ClassAreaNonNegative | src/services/OptimizationEngine.ts:178-186 | A non-negative class holds only non-negative areas, so its total is non-negative |
| OptimizationEngine.AgeRules | src/services/OptimizationEngine.ts:213-220 | The age rule adds positive points and a reason distinct from the default |
| OptimizationEngine.SizeRules | src/services/OptimizationEngine.ts:222-229 | The size rule adds positive points and a reason distinct from the default |
| OptimizationEngine.StatusRules | src/services/OptimizationEngine.ts:231-235 | The status rule adds positive points and a reason distinct from the default |
| OptimizationEngine.ReturnRules | src/services/OptimizationEngine.ts:237-245 | The return rule adds positive points and a reason distinct from the default |
| OptimizationEngine.FiredRules | src/services/OptimizationEngine.ts:213-245 | Every rule that fires adds positive points and a non-default reason |
| OptimizationEngine.PointsAppend | src/services/OptimizationEngine.ts:210-245 | Points add up over the rules checked in turn |
| OptimizationEngine.PointsPositive | src/services/OptimizationEngine.ts:210-245 | Points are never negative, and are 0 exactly when no rule fired |
| OptimizationEngine.ReturnRulesNeverFire | src/services/OptimizationEngine.ts:237-245 | At the default price the ROI rules never fire, so the priority lies in [0, 150] |
| OptimizationEngine.DefaultReasonIffNoRule | src/services/OptimizationEngine.ts:247-251 | The reason is the default text iff the priority is 0 iff no rule fired |
| OptimizationEngine.EvaluateReformPriority | src/services/OptimizationEngine.ts:207-254 | Every plot assessed and sorted by descending priority; proved in `EvaluateReformPriorityProperties` |
| OptimizationEngine.EvaluateReformPriorityProperties | src/services/OptimizationEngine.ts:207-254 | One assessment per plot, a permutation of the per-plot assessments, sorted by non-increasing priority; equal priorities keep the plots' order |
| CategoryUtils.GetPlotCategoryInfo | src/utils/categoryUtils.ts:6-32 | Assigned iff some category lists the plot, then carrying the first such category's name, id and cycle; otherwise only `isAssigned: false` |
| CategoryUtils.GetPlotsWithCategoryInfo | src/utils/categoryUtils.ts:49-52 | One entry per plot, in order, each holding exactly `GetPlotCategoryInfo` of that plot's id (assigned iff some category lists it) |
| CategoryUtils.GetUnassignedPlots | src/utils/categoryUtils.ts:58-66 | Exactly the plots no category lists, drawn from the input |
| CategoryUtils.UnassignedPartition | src/utils/categoryUtils.ts:58-66 | The unassigned and the assigned plots together are the input, as multisets |
| CategoryUtils.IsPlotInCategory | src/utils/categoryUtils.ts:71-78 | True exactly when the first category with that id (the one `find` returns) lists the plot |
| CategoryUtils.IsPlotInCategoryAssigned | src/utils/categoryUtils.ts:71-78 | An unknown category id holds no plot, and a plot in some category is reported as assigned |
| CategoryUtils.GetPlotCycle | src/utils/categoryUtils.ts:83-92 | The cycle of the plot's first category, absent exactly when the plot is unassigned |
| CategoryUtils.CategoryCycleIsNotStoredCycle | src/utils/categoryUtils.ts:83-92 | The reported cycle comes from the category, not from the plot: a plot stored at cycle 3 in a cycle-1 category reports 1 |
| CycleCategoriesData.FindCycle | src/constants/cycleCategoriesData.ts:48-66 | The `find` lookup returns row i for cycle i in 0..5 and nothing otherwise |
| CycleCategoriesData.TableShape | src/constants/cycleCategoriesData.ts:3-46 | Six rows, the row at index i holding cycle i |
| CycleCategoriesData.TableMatchesSeed | src/database/schema.ts:99-105 | The constant table agrees row by row with the rows the schema seeds into `cycle_categories` |
| CycleCategoriesData.GetCycleNameById | src/constants/cycleCategoriesData.ts:48-51 | The table's name for cycles 0..5, otherwise "Ciclo n" |
| CycleCategoriesData.GetExpectedProductivity | src/constants/cycleCategoriesData.ts:53-56 | The table's productivity for cycles 0..5, otherwise 0 |
| CycleCategoriesData.GetStandardRevenue | src/constants/cycleCategoriesData.ts:58-61 | The table's standard revenue for cycles 0..5, otherwise 0 |
| CycleCategoriesData.GetStandardCosts | src/constants/cycleCategoriesData.ts:63-66 | The table's standard costs for cycles 0..5, otherwise 0 |
| CycleCategoriesData.ProductivityDeclines | src/constants/cycleCategoriesData.ts:3-56 | From the first cut on productivity never rises with the cycle, and no figure is negative |
| CycleCategoriesData.FiguresNonNegative | src/constants/cycleCategoriesData.ts:3-66 | No lookup ever returns a negative figure |
| CycleCategoriesData.ProductivityValues | src/constants/cycleCategoriesData.ts:3-56 | Productivity is 0, 110, 100, 90, 85, 80 t/ha for cycles 0..5 |
| Formatters.GetStatusColor | src/utils/formatters.ts:51-64 | A seven-character `#rrggbb` colour, grey for any text other than the four statuses |
| Formatters.GetStatusLabel | src/utils/formatters.ts:66-79 | Any text other than the four statuses is shown unchanged |
| Formatters.StatusDisplayDistinct | src/utils/formatters.ts:51-79 | The four statuses get four distinct labels and four distinct colours, none of them grey |
| Formatters.GetCycleColor | src/utils/formatters.ts:81-92 | The palette entry for cycles 0..5, grey otherwise |
| Formatters.DisplayedProductivity | src/utils/formatters.ts:38-41 | Tonnes per hectare (times the area gives the tonnage back), 0 for a non-positive area; computed by `FinancialCalculations.PerHectare` |
| Formatters.Substring | src/utils/formatters.ts:96 | `substring(0, end)` is the prefix of length `end` clamped to [0, length] |
| Formatters.TruncateString | src/utils/formatters.ts:94-97 | A text that fits is unchanged; otherwise a prefix plus "...", exactly `maxLength` long when `maxLength` ≥ 3 |
| Formatters.TruncateIdempotent | src/utils/formatters.ts:94-97 | Truncating twice (with room for the ellipsis) is truncating once |
| Formatters.CapitalizeFirstLetter | src/utils/formatters.ts:99-101 | Same length, first character upper-cased, every other character lower-cased, for ASCII and Latin-1 letters (Portuguese accented letters included) |
| Formatters.CapitalizeIdempotent | src/utils/formatters.ts:99-101 | Capitalising twice is capitalising once |
| SampleData.CalculateTotalArea | src/constants/sampleData.ts:197-199 | The total is the sum of the sample plots' areas, 203.09 ha for the nineteen sample plots |
| SampleData.SampleTotal | src/constants/sampleData.ts:3-199 | The nineteen sample areas add up to 203.09 ha |
| SampleData.WithStatus | src/constants/sampleData.ts:201-203 | Exactly the plots whose status text matches, drawn from the list |
| SampleData.WithCycle | src/constants/sampleData.ts:205-207 | Exactly the plots at that cycle, drawn from the list |
| SampleData.GetPlotsByStatus | src/constants/sampleData.ts:201-203 | The sample plots with that status, as `WithStatus` states |
| SampleData.GetPlotsByCycle | src/constants/sampleData.ts:205-207 | The sample plots at that cycle, as `WithCycle` states |
| SampleData.SamplePlotsWellFormed | src/constants/sampleData.ts:3-195 | Nineteen plots numbered 1..19 with distinct ids, areas in (0, 40] and cycles 0..5 |
| PlotRepository.ToPlot | src/database/models/PlotRepository.ts:16-23 | A row maps to a plot with the same id, number, area, cycle and status; an empty last-harvest date becomes absent |
| PlotRepository.SortedByNumber | src/database/models/PlotRepository.ts:6-14 | `ORDER BY number` yields a permutation of the rows in ascending number order; rows with the same number keep their table order |
| PlotRepository.GetAllPlots | src/database/models/PlotRepository.ts:5-24 | Every stored plot is listed exactly once per row, mapped, in ascending number order, and nothing else is listed |
| PlotRepository.SelectedPlotsKept | src/database/models/PlotRepository.ts:149-191 | Every plot a filtered listing returns comes from a row the WHERE clause keeps |
| PlotRepository.SelectedPlotsListed | src/database/models/PlotRepository.ts:149-191 | Every row the WHERE clause keeps is listed, mapped |
| PlotRepository.GetPlotsByCycle | src/database/models/PlotRepository.ts:149-169 | Only plots in the requested cycle, every such plot, ascending by number |
| PlotRepository.GetPlotsByStatus | src/database/models/PlotRepository.ts:171-191 | Only plots with the requested status, every such plot, ascending by number |
| PlotRepository.MaxNumber | src/database/models/PlotRepository.ts:27-30 | `MAX(number)` is absent exactly on an empty table, otherwise it bounds every number and is attained |
| PlotRepository.GetNextPlotNumber | src/database/models/PlotRepository.ts:26-33 | The next number is 1 on an empty table, otherwise exactly one above the largest existing number, so above every number |
| PlotRepository.CreatePlot | src/database/models/PlotRepository.ts:61-88 | Appends one row carrying the next plot number, the given id and the insert time, and returns that id; other tables unchanged |
| PlotRepository.CreatePlotKeepsNumbersUnique | src/database/models/PlotRepository.ts:61-88 | A created plot is numbered above every existing plot, so unique plot numbers stay unique |
| PlotRepository.UpdatePlot | src/database/models/PlotRepository.ts:90-143 | Always builds an UPDATE with `updated_at`; it is applied to the row with that id unless it would duplicate a plot number (UNIQUE constraint), in which case the table is unchanged |
| PlotRepository.PlotStatementShape | src/database/models/PlotRepository.ts:90-142 | The statement always sets `updated_at`, binds one value per placeholder, and binds the supplied fields plus two values |
| PlotRepository.PlotUpdateAgrees | src/database/models/PlotRepository.ts:94-142 | After the update each column the statement assigns holds the statement's value and every other column is unchanged |
| PlotRepository.PlotStatementAt | src/database/models/PlotRepository.ts:95-135 | Each supplied field is assigned to its own column with its own value |
| PlotRepository.PlotStatementOther | src/database/models/PlotRepository.ts:134-137 | No column outside the updatable ones is assigned except `updated_at` |
| PlotRepository.PlotColumnOther | src/database/models/PlotRepository.ts:94-142 | Columns outside the updatable ones keep their values |
| PlotRepository.UpdatePlotKeepsNumbersUnique | src/database/models/PlotRepository.ts:90-143 | An update that is not refused keeps plot numbers unique |
| PlotRepository.DeletePlot | src/database/models/PlotRepository.ts:145-147 | Removes exactly the rows with that id, keeps the rest in order, and touches no other table |
| ProductionRepository.ToProduction | src/database/models/ProductionRepository.ts:14-18 | A row maps to a harvest record with the same id, plot, cycle, date and figures; an empty creation time maps to absent |
| ProductionRepository.GetAllProductions | src/database/models/ProductionRepository.ts:5-19 | Every row is listed, mapped, newest harvest date first, and nothing else |
| ProductionRepository.GetProductionsByPlot | src/database/models/ProductionRepository.ts:42-57 | Only that plot's harvests, every one of them, newest first |
| ProductionRepository.GetProductionsByCycle | src/database/models/ProductionRepository.ts:59-74 | Only that cycle's harvests, every one of them, newest first |
| ProductionRepository.CreateProduction | src/database/models/ProductionRepository.ts:76-98 | Appends exactly one row built from the input, the given id and the insert time, and returns that id |
| ProductionRepository.CreatedProductionListed | src/database/models/ProductionRepository.ts:42-98 | A created harvest is then listed under its plot and under its cycle, with the plot, cycle, date and figures it was given |
| ProductionRepository.UpdateProduction | src/database/models/ProductionRepository.ts:100-146 | No statement and no change when no field is supplied; otherwise one UPDATE of the supplied columns, applied to the row with that id |
| ProductionRepository.ProductionStatementShape | src/database/models/ProductionRepository.ts:100-145 | The statement binds one value per supplied field plus the id, one per placeholder |
| ProductionRepository.ProductionStatementNoTimestamp | src/database/models/ProductionRepository.ts:104-135 | The update never assigns `created_at` (the table has no update time), and every assigned column is bound |
| ProductionRepository.EmptyProductionPatchChangesNothing | src/database/models/ProductionRepository.ts:137-139 | An update with no supplied field changes no row |
| ProductionRepository.ProductionUpdateAgrees | src/database/models/ProductionRepository.ts:100-145 | After the update each column the statement assigns holds the statement's value and every other column is unchanged |
| ProductionRepository.ProductionStatementOther | src/database/models/ProductionRepository.ts:104-135 | No column outside the updatable ones is assigned |
| ProductionRepository.ProductionColumnOther | src/database/models/ProductionRepository.ts:100-145 | Columns outside the updatable ones keep their values |
| ProductionRepository.DeleteProduction | src/database/models/ProductionRepository.ts:148-150 | Removes exactly the rows with that id, keeps every other row in order |
| CategoryRepository.CreateCategory | src/database/models/CategoryRepository.ts:5-23 | Appends exactly one category row built from the input, the given id and the insert time, and returns that id |
| CategoryRepository.JoinedPlots | src/database/models/CategoryRepository.ts:36-40 | The plot join yields only plot rows with an active link to the category, and every such row |
| CategoryRepository.JoinedPreparations | src/database/models/CategoryRepository.ts:42-46 | The soil-preparation join yields only preparations linked to the category, and every such row |
| CategoryRepository.LinkedPlot | src/database/models/CategoryRepository.ts:55-64 | A joined plot keeps its id, number and stored planting date; an empty last-harvest date becomes absent; both timestamps are read |
| CategoryRepository.LinkedPreparation | src/database/models/CategoryRepository.ts:65-72 | A joined soil preparation keeps its id and total cost and carries no actions |
| CategoryRepository.AssembledPlotsLinked | src/database/models/CategoryRepository.ts:36-64 | A category is read with exactly the mapped plot rows actively linked to it; inactive (historical) links contribute nothing |
| CategoryRepository.AssembledPreparationsLinked | src/database/models/CategoryRepository.ts:42-72 | A category is read with exactly the mapped soil preparations linked to it |
| CategoryRepository.Assemble | src/database/models/CategoryRepository.ts:35-75 | A category row with its actively linked plots and its linked soil preparations; `AssembledPlotsLinked` and `AssembledPreparationsLinked` state which |
| CategoryRepository.FindById | src/database/models/CategoryRepository.ts:25-76 | Null exactly when no row has the id; otherwise a category read from a row with that id |
| CategoryRepository.AssembleAll | src/database/models/CategoryRepository.ts:81-84 | Each row is read as `findById` reads it, in the order given |
| CategoryRepository.SortedRows | src/database/models/CategoryRepository.ts:79 | `ORDER BY cycle, name`: a permutation of the rows, ordered by cycle and then by name within a cycle; rows equal in both keep their table order |
| CategoryRepository.FindAll | src/database/models/CategoryRepository.ts:78-89 | One category per row, ordered by cycle then name, each read as `findById` reads it |
| CategoryRepository.FindAllAgreesWithFindById | src/database/models/CategoryRepository.ts:78-89 | With distinct ids, each listed category is what `findById` returns for its id |
| CategoryRepository.CreatedCategoryFound | src/database/models/CategoryRepository.ts:5-76 | A freshly created category reads back with the values it was given and no plots or soil preparations |
| CategoryRepository.DeleteCategory | src/database/models/CategoryRepository.ts:130-139 | Deletes the category's plot links (active and historical), its soil-preparation links and the category row, and nothing else |
| CategoryRepository.DeletedCategoryGone | src/database/models/CategoryRepository.ts:130-139 | After deletion the category is not found and no plot is actively linked to it |
| CategoryRepository.NewLinks | src/database/models/CategoryRepository.ts:150-156 | One active link per plot id, with the generated link ids, in the order given |
| CategoryRepository.AssignPlots | src/database/models/CategoryRepository.ts:141-158 | Every link of the category is deactivated (kept as history) and one active link is appended per plot id |
| CategoryRepository.AssignPlotsActiveIds | src/database/models/CategoryRepository.ts:141-158 | Afterwards the plots actively linked to the category are exactly the given ids, in order, whatever was linked before; no row is lost |
| CategoryRepository.AssignPlotsKeepsOtherCategories | src/database/models/CategoryRepository.ts:141-158 | The links of every other category are untouched |
| CategoryRepository.CategoryCycle | src/database/models/CategoryRepository.ts:5-23 | A category's cycle, when known, is the cycle of a row with that id |
| CategoryRepository.AssignPlotsBreaksOneActivePerCycle | src/database/models/CategoryRepository.ts:141-158 | As written, assigning a plot to category "b" leaves it active in category "a" of the same cycle |
| CategoryRepository.AssignPlotsMovingKeepsOneActivePerCycle | src/database/models/CategoryRepository.ts:141-158 | The corrected assignment keeps every plot in at most one active category per cycle |
| CategoryRepository.AssignPlotsMovingActiveIds | src/database/models/CategoryRepository.ts:141-158 | The corrected assignment still leaves exactly the given plot ids active in the category |
| CategoryRepository.AssignedPlotsFound | src/database/models/CategoryRepository.ts:25-76 | Reading a category after assigning plots lists exactly the plot rows whose id was assigned |
| CategoryRepository.NewPrepLinks | src/database/models/CategoryRepository.ts:166-172 | One link per soil preparation id, with the generated row ids, in the order given |
| CategoryRepository.AssignSoilPreparations | src/database/models/CategoryRepository.ts:160-174 | The category's preparation links are deleted and one link per preparation id is appended |
| CategoryRepository.AssignPreparationsResult | src/database/models/CategoryRepository.ts:160-174 | Afterwards the category's soil preparations are exactly the given ids, in order, and every other category's links are unchanged |
| CategoryRepository.SaveHistory | src/database/models/CategoryRepository.ts:176-194 | Appends exactly one snapshot row with the given id and returns that id |
| CategoryRepository.SortHistory | src/database/models/CategoryRepository.ts:198 | `ORDER BY configuration_date DESC`: exactly the snapshots of the rows, each as often as its row (a permutation), most recent first |
| CategoryRepository.GetHistory | src/database/models/CategoryRepository.ts:196-211 | Each entry is the snapshot of a stored row of the category, every such row appears as often as it is stored (a permutation of the filtered rows), most recent configuration date first |
| CategoryRepository.SavedHistoryFound | src/database/models/CategoryRepository.ts:176-211 | A saved snapshot is read back under its category with the same plot and soil-preparation lists |
| CategoryRepository.UpdateCategory | src/database/models/CategoryRepository.ts:90-128 | Nothing happens when no field is supplied (not even the update time); otherwise one UPDATE of the supplied columns and `updated_at`, applied to the row with that id |
| CategoryRepository.CategoryStatementShape | src/database/models/CategoryRepository.ts:90-127 | The statement binds one value per supplied field plus the id, one per placeholder, and sets `updated_at` last without binding a value |
| CategoryRepository.CategoryUpdateAgrees | src/database/models/CategoryRepository.ts:90-127 | After the update each column the statement assigns holds the statement's value and every other column is unchanged |
| CategoryRepository.CategoryStatementOther | src/database/models/CategoryRepository.ts:94-121 | No column outside the updatable ones is assigned except `updated_at` |
| CategoryRepository.CategoryColumnOther | src/database/models/CategoryRepository.ts:90-127 | Columns outside the updatable ones and the update time keep their values |
| SoilPreparationRepository.NewActionRows | src/database/models/SoilPreparationRepository.ts:23-28 | One action row per action, tagged with the preparation id and the generated ids, in order |
| SoilPreparationRepository.CreateAction | src/database/models/SoilPreparationRepository.ts:34-53 | Appends exactly one action row with the given id and returns that id |
| SoilPreparationRepository.InsertActions | src/database/models/SoilPreparationRepository.ts:23-28 | The loop appends exactly the new action rows, in order, and nothing else |
| SoilPreparationRepository.Create | src/database/models/SoilPreparationRepository.ts:5-32 | Appends the preparation row with the caller's total cost and one action row per action tagged with the new id, and returns the id |
| SoilPreparationRepository.UnitCost | src/database/models/SoilPreparationRepository.ts:66-72 | A product's unit cost as the join reads it; absent exactly when no product row has the id |
| SoilPreparationRepository.SortedByOrder | src/database/models/SoilPreparationRepository.ts:71 | `ORDER BY action_order`: a permutation of the rows, ascending by order; rows with the same order keep their table order |
| SoilPreparationRepository.ToActions | src/database/models/SoilPreparationRepository.ts:74-83 | Each joined row maps to an action, in the order given |
| SoilPreparationRepository.PreparationActions | src/database/models/SoilPreparationRepository.ts:66-83 | A preparation's actions are exactly its action rows whose product exists, in `action_order` order |
| SoilPreparationRepository.Assemble | src/database/models/SoilPreparationRepository.ts:60-95 | A preparation row with its own actions ordered by `action_order`, as `PreparationActions` states |
| SoilPreparationRepository.FindById | src/database/models/SoilPreparationRepository.ts:55-95 | Null exactly when no row has the id; otherwise the first such row with its actions |
| SoilPreparationRepository.FindByIdOfRow | src/database/models/SoilPreparationRepository.ts:55-95 | With distinct ids, reading a row's id returns that row |
| SoilPreparationRepository.ReadEach | src/database/models/SoilPreparationRepository.ts:100-106 | The loop over the listed rows reads each one with `findById`, keeping the ones found, in order |
| SoilPreparationRepository.ReadEachRows | src/database/models/SoilPreparationRepository.ts:100-106 | With distinct ids, every listed row is read back as itself |
| SoilPreparationRepository.SortedByName | src/database/models/SoilPreparationRepository.ts:98 | `ORDER BY name` (`Sorting.SortedByText` on the name): a permutation of the rows, ascending by name; rows with the same name keep their table order |
| SoilPreparationRepository.FindAll | src/database/models/SoilPreparationRepository.ts:97-107 | Every row in name order, each read again by `findById`; proved in `FindAllListsEach` |
| SoilPreparationRepository.FindAllListsEach | src/database/models/SoilPreparationRepository.ts:97-107 | With distinct ids, every preparation is listed once, as `findById` reads it, by name |
| SoilPreparationRepository.Search | src/database/models/SoilPreparationRepository.ts:196-211 | The rows whose name or description is `LIKE '%term%'` (`%` any run, `_` any one character, ASCII letters in either case), in name order, each read by `findById`; proved in `SearchListsMatches` |
| SoilPreparationRepository.SearchListsMatches | src/database/models/SoilPreparationRepository.ts:196-211 | With distinct ids, exactly the preparations whose name or description is `LIKE '%term%'` are listed, once each, by name |
| SoilPreparationRepository.SearchFindsNameContaining | src/database/models/SoilPreparationRepository.ts:196-211 | With distinct ids, a preparation whose name contains a wildcard-free term as written is found |
| SoilPreparationRepository.CreatedPreparationFound | src/database/models/SoilPreparationRepository.ts:5-95 | A freshly created preparation reads back with the caller's total cost (not a recomputed one) and exactly its new actions whose product exists |
| SoilPreparationRepository.CalculateTotalCost | src/database/models/SoilPreparationRepository.ts:185-194 | The sum of dosage × unit cost over the preparation's actions whose product exists, 0 for none; proved in the `TotalCost…` lemmas |
| SoilPreparationRepository.TotalCostOwnActions | src/database/models/SoilPreparationRepository.ts:185-194 | The cost sums only the preparation's own action rows |
| SoilPreparationRepository.TotalCostNonNegative | src/database/models/SoilPreparationRepository.ts:185-194 | With non-negative dosages and unit costs the cost is non-negative |
| SoilPreparationRepository.TotalCostAppend | src/database/models/SoilPreparationRepository.ts:185-194 | The cost of two batches of action rows is the sum of their costs |
| SoilPreparationRepository.NewRowCost | src/database/models/SoilPreparationRepository.ts:185-194 | One inserted action row costs its dosage times its product's unit cost, or nothing when the product is missing |
| SoilPreparationRepository.NewRowsCost | src/database/models/SoilPreparationRepository.ts:185-194 | The inserted action rows cost the sum of their planned costs |
| SoilPreparationRepository.UpdateActions | src/database/models/SoilPreparationRepository.ts:141-168 | Deletes the preparation's actions, appends the new ones tagged with it, and stores the recomputed cost with the update time |
| SoilPreparationRepository.UpdateActionsReplaces | src/database/models/SoilPreparationRepository.ts:141-152 | Afterwards the preparation has exactly the new actions and every other preparation keeps its action rows |
| SoilPreparationRepository.UpdateActionsCost | src/database/models/SoilPreparationRepository.ts:154-166 | The stored cost is the sum of dosage times unit cost over the new actions whose product exists; the old actions do not count |
| SoilPreparationRepository.UpdateActionsUnpricedCostsNothing | src/database/models/SoilPreparationRepository.ts:162 | With no priced action the stored cost is 0 (`SUM` of nothing is NULL, read as 0) |
| SoilPreparationRepository.SameOwnActionsSameCost | src/database/models/SoilPreparationRepository.ts:185-194 | A preparation's cost does not change when its own action rows do not |
| SoilPreparationRepository.UpdateActionsKeepsCostsConsistent | src/database/models/SoilPreparationRepository.ts:141-168 | Every stored cost that matched its actions still matches afterwards |
| SoilPreparationRepository.Update | src/database/models/SoilPreparationRepository.ts:109-139 | Nothing happens when no field is supplied; otherwise one UPDATE of the supplied columns and `updated_at`, applied to the row with that id |
| SoilPreparationRepository.PreparationStatementShape | src/database/models/SoilPreparationRepository.ts:109-138 | The statement binds one value per supplied field plus the id, one per placeholder, and sets `updated_at` last without binding a value |
| SoilPreparationRepository.PreparationUpdateAgrees | src/database/models/SoilPreparationRepository.ts:109-138 | After the update each column the statement assigns holds the statement's value and every other column is unchanged |
| SoilPreparationRepository.PreparationStatementOther | src/database/models/SoilPreparationRepository.ts:113-132 | No column outside the updatable ones is assigned except `updated_at` |
| SoilPreparationRepository.PreparationColumnOther | src/database/models/SoilPreparationRepository.ts:109-138 | Columns outside the updatable ones and the update time keep their values |
| SoilPreparationRepository.Delete | src/database/models/SoilPreparationRepository.ts:170-179 | Deletes the preparation's actions, the preparation row and every category link to it, and nothing else |
| SoilPreparationRepository.DeletedPreparationGone | src/database/models/SoilPreparationRepository.ts:170-179 | Afterwards the preparation is not found, none of its actions or links remain, and every other preparation keeps its actions |
| SoilPreparationRepository.DeleteKeepsCostsConsistent | src/database/models/SoilPreparationRepository.ts:170-179 | Deleting a preparation keeps the other preparations' stored costs consistent |
| SoilPreparationRepository.DeleteAction | src/database/models/SoilPreparationRepository.ts:181-183 | Removes exactly the action rows with that id; the stored total cost is left as it was |
| SoilPreparationRepository.DeleteActionLeavesCostStale | src/database/models/SoilPreparationRepository.ts:181-183 | As written, deleting the only action (3 units at 2 each) leaves a stored cost of 6 while the actions now add up to 0 |
| SoilPreparationRepository.DeleteActionRecosting | src/database/models/SoilPreparationRepository.ts:181-194 | The corrected deletion removes the action and stores the owning preparation's recomputed cost |
| SoilPreparationRepository.DeleteActionRecostingKeepsCostsConsistent | src/database/models/SoilPreparationRepository.ts:181-194 | The corrected deletion keeps every stored cost equal to what the actions add up to |
| ProductRepository.NonZero | src/database/models/ProductRepository.ts:41-49 | `n \|\| null` on a number: NULL exactly when the value is absent or zero, otherwise the value itself |
| ProductRepository.NonZeroInt | src/database/models/ProductRepository.ts:48-49 | `n \|\| null` on an integer: NULL exactly when the value is absent or zero, otherwise the value itself |
| ProductRepository.ActiveFlag | src/database/models/ProductRepository.ts:294 | The stored flag is 1 exactly when the product is active and 0 exactly when it is not |
| ProductRepository.MapRowToProduct | src/database/models/ProductRepository.ts:75-117 | A row reads back with its id and timestamps, active exactly when `is_active` is 1, and with a dosage exactly when one of the three dosage columns is truthy |
| ProductRepository.Create | src/database/models/ProductRepository.ts:5-61 | Appends exactly one product row built from the input, the given id and the insert time, and returns that id |
| ProductRepository.FindById | src/database/models/ProductRepository.ts:63-73 | Null exactly when no row has the id; otherwise the mapping of a row with that id |
| ProductRepository.CreatedProductFound | src/database/models/ProductRepository.ts:5-117 | A created product is found with the name, brand, category, type, unit, cost, lists and active flag it was given; a dosage whose columns are all falsy reads back absent |
| ProductRepository.NewProductReadsBack | src/database/models/ProductRepository.ts:5-117 | Field by field, what the inserted row maps back to: values stored with `\|\| null` come back absent when they were falsy |
| ProductRepository.StoredAsGivenReadsBack | src/database/models/ProductRepository.ts:5-117 | A product none of whose optional values is falsy reads back exactly as given |
| ProductRepository.DosageReadsBack | src/database/models/ProductRepository.ts:41-43 | A dosage none of whose parts is falsy is stored in three columns and reads back unchanged |
| ProductRepository.SortedByName | src/database/models/ProductRepository.ts:121-122 | `ORDER BY name` (`Sorting.SortedByText` on the name): a permutation of the rows, ascending by name; rows with the same name keep their table order |
| ProductRepository.ToProducts | src/database/models/ProductRepository.ts:126 | Each row mapped, in the order given |
| ProductRepository.Listing | src/database/models/ProductRepository.ts:119-145 | A listing has one product per selected row, ascending by name, only from selected rows, and every selected row appears |
| ProductRepository.FindAll | src/database/models/ProductRepository.ts:119-127 | By name; with `activeOnly` only and every active product, otherwise every row |
| ProductRepository.FindByCategory | src/database/models/ProductRepository.ts:129-136 | By name, only and every active product of that category |
| ProductRepository.FindByType | src/database/models/ProductRepository.ts:138-145 | By name, only and every active product of that type |
| ProductRepository.KeptAreActive | src/database/models/ProductRepository.ts:119-145 | Products read from rows that are all active are all active |
| ProductRepository.Search | src/database/models/ProductRepository.ts:313-323 | By name, only and every active product one of whose searched columns is `LIKE '%term%'`, with `%` and `_` in the term acting as wildcards |
| ProductRepository.SearchFindsNameContaining | src/database/models/ProductRepository.ts:313-323 | An active product whose name contains a wildcard-free term as written is found |
| Strings.LikeAnywhereLiteral | src/database/models/ProductRepository.ts:316-319 | For a term without `%` or `_`, `text LIKE '%term%'` holds exactly when the term occurs in the text, both folded to ASCII lower case |
| Strings.SubstringIsLike | src/database/models/ProductRepository.ts:316-319 | A wildcard-free term that occurs in the text as written matches `LIKE '%term%'` |
| Strings.LikeUnderscoreExample | src/database/models/SoilPreparationRepository.ts:197-200 | The unescaped term `a_c` matches `abc` although it is not a substring of it |
| Strings.LikeCaseExample | src/database/models/SoilPreparationRepository.ts:197-200 | The term `ureia` matches `Ureia`: ASCII letters match in either case |
| Strings.LikePercentExample | src/database/models/SoilPreparationRepository.ts:197-200 | The term `%` matches every text |
| ProductRepository.Delete | src/database/models/ProductRepository.ts:309-311 | A soft delete: every row with that id is marked inactive; nothing else changes |
| ProductRepository.ActiveListingHides | src/database/models/ProductRepository.ts:119-145 | A listing that keeps only active rows never shows a soft-deleted product |
| ProductRepository.SoftDeleteKeepsRows | src/database/models/ProductRepository.ts:309-311 | Soft deletion keeps every row in place; only the rows with that id change, and only their flag |
| ProductRepository.DeletedProductHidden | src/database/models/ProductRepository.ts:119-145 | After deletion the active listings (`findAll()`, by category, by type, `search`) no longer show the product |
| ProductRepository.DeletedProductStillStored | src/database/models/ProductRepository.ts:63-127 | After deletion the product is still found by id and listed by `findAll(false)`, inactive |
| ProductRepository.ProductColumnsDistinct | src/database/models/ProductRepository.ts:147-295 | `update` checks no column twice |
| ProductRepository.ProductColumnsExcludeTimestamp | src/database/models/ProductRepository.ts:147-299 | `updated_at` is not one of the updatable columns |
| ProductRepository.ProductValues | src/database/models/ProductRepository.ts:147-295 | One candidate value per updatable column, absent where the field is `undefined` |
| ProductRepository.ProductUpdatable | src/database/models/ProductRepository.ts:147-295 | What a row holds in each updatable column, one value per column |
| ProductRepository.Update | src/database/models/ProductRepository.ts:147-307 | Nothing happens when no field is supplied (not even the update time); otherwise one UPDATE of the supplied columns and `updated_at`, applied to the row with that id |
| ProductRepository.ProductStatementShape | src/database/models/ProductRepository.ts:297-306 | The statement binds one value per supplied field, then the clock, then the id: one value per placeholder |
| ProductRepository.ProductUpdateAgrees | src/database/models/ProductRepository.ts:147-306 | Column by column, a supplied field's column holds its value afterwards and an unsupplied column keeps the row's value |
| ProductRepository.ProductStatementValue | src/database/models/ProductRepository.ts:147-295 | The statement leaves the k-th value in the k-th updatable column |
| ProductRepository.ProductUpdateOtherColumns | src/database/models/ProductRepository.ts:297-306 | `updated_at` is set to the clock and no column outside the updatable ones is assigned; id and creation time stay |
| ProductRepository.ProductDosageTogether | src/database/models/ProductRepository.ts:240-247 | A supplied dosage sets the three dosage columns together; an absent one sets none of them |
| ProductRepository.ProductFlagColumnNames | src/database/models/ProductRepository.ts:240-295 | Where the dosage and active-flag columns sit among the updatable ones |
| ProductRepository.ProductActiveFlagStored | src/database/models/ProductRepository.ts:292-295 | `is_active` is set exactly when the flag is supplied, to 1 for true and 0 for false |
| SliceLists.ReplaceById | src/store/slices/plotsSlice.ts:140-143 | `findIndex` then assignment: length and ids stay, only the first entry with the item's id becomes the item, the list is unchanged when no entry has that id |
| SliceLists.RemoveById | src/store/slices/plotsSlice.ts:157-159 | `filter` by id: only entries with another id remain, every one of them, and nothing changes when no entry has the id |
| SliceLists.RemoveByIdAppend | src/store/slices/plotsSlice.ts:157-159 | Removal keeps relative order: it distributes over concatenation |
| SliceLists.RemoveByIdCount | src/store/slices/plotsSlice.ts:157-159 | Exactly the entries with the id are removed: kept plus removed account for the whole list |
| SliceLists.RemoveAfterReplace | src/store/slices/plotsSlice.ts:137-163 | Updating a record and then deleting its id is the same as deleting the id |
| SliceLists.DeleteUndoesPush | src/store/slices/plotsSlice.ts:123-163 | Deleting the id of a pushed record whose id was new gives back the list before the push |
| SliceLists.DeleteUndoesUnshift | src/store/slices/productionsSlice.ts:127-148 | Deleting the id of a record put at the front whose id was new gives back the list before |
| SliceLists.ReplaceKeepsUniqueIds | src/store/slices/plotsSlice.ts:140-143 | Updating by id keeps ids unique |
| SliceLists.RemoveKeepsUniqueIds | src/store/slices/plotsSlice.ts:157-159 | Deleting by id keeps ids unique |
| SliceLists.SyncSelected | src/store/slices/plotsSlice.ts:144-146 | The selection becomes the updated record exactly when it shows that record's id; otherwise it is unchanged |
| SliceLists.DropSelected | src/store/slices/plotsSlice.ts:160-162 | The selection is cleared exactly when it was empty or showed the deleted id; otherwise it is unchanged |
| SliceLists.ErrorText | src/store/slices/plotsSlice.ts:103-106 | `message \|\| default`: the rejection's message unless it is missing or empty, so never empty when the default is not |
| PlotsSlice.DefaultError | src/store/slices/plotsSlice.ts:103-167 | Each thunk's fallback error is a non-empty "Failed to …" message |
| PlotsSlice.PlotsState.constructor | src/store/slices/plotsSlice.ts:13-19 | The initial state: no plots, no selection, next number 1, not loading, no error |
| PlotsSlice.PlotsState.ClearSelectedPlot | src/store/slices/plotsSlice.ts:86-88 | Only the selection changes, to none |
| PlotsSlice.PlotsState.ClearError | src/store/slices/plotsSlice.ts:89-91 | Only the error changes, to none |
| PlotsSlice.PlotsState.Pending | src/store/slices/plotsSlice.ts:95-156 | Every pending case sets loading and clears the error; list and selection stay |
| PlotsSlice.PlotsState.Rejected | src/store/slices/plotsSlice.ts:103-167 | Every rejected case stops loading and stores the message or the thunk's default; list and selection stay |
| PlotsSlice.PlotsState.FetchPlotsFulfilled | src/store/slices/plotsSlice.ts:99-102 | The list becomes the payload and loading stops |
| PlotsSlice.PlotsState.FetchPlotByIdFulfilled | src/store/slices/plotsSlice.ts:111-114 | The selection becomes the payload, null included, and loading stops |
| PlotsSlice.PlotsState.CreatePlotFulfilled | src/store/slices/plotsSlice.ts:123-128 | A non-null payload is pushed at the end; a null one leaves the list as it was |
| PlotsSlice.PlotsState.UpdatePlotFulfilled | src/store/slices/plotsSlice.ts:137-148 | The first plot with the payload's id is replaced in place and the selection follows it when it shows that id |
| PlotsSlice.PlotsState.DeletePlotFulfilled | src/store/slices/plotsSlice.ts:157-163 | Every plot with the id goes and the selection is cleared when it shows that id |
| PlotsSlice.PlotsState.GetNextPlotNumberFulfilled | src/store/slices/plotsSlice.ts:168-170 | Only the next plot number changes, to the payload |
| ProductionsSlice.ProductionsState.constructor | src/store/slices/productionsSlice.ts:23-29 | The initial state: no productions, no selection, no summary, not loading, no error |
| ProductionsSlice.ProductionsState.ClearSelectedProduction | src/store/slices/productionsSlice.ts:94-96 | Only the selection changes, to none |
| ProductionsSlice.ProductionsState.ClearError | src/store/slices/productionsSlice.ts:97-99 | Only the error changes, to none |
| ProductionsSlice.ProductionsState.FetchProductionsPending | src/store/slices/productionsSlice.ts:103-106 | Loading starts and the error is cleared |
| ProductionsSlice.ProductionsState.FetchProductionsFulfilled | src/store/slices/productionsSlice.ts:107-110 | The list becomes the payload and loading stops |
| ProductionsSlice.ProductionsState.FetchProductionsRejected | src/store/slices/productionsSlice.ts:111-114 | Loading stops and the message, or the fixed default, becomes the error |
| ProductionsSlice.ProductionsState.FetchProductionByIdFulfilled | src/store/slices/productionsSlice.ts:115-117 | Only the selection changes, to the payload, null included |
| ProductionsSlice.ProductionsState.FetchProductionsFilteredFulfilled | src/store/slices/productionsSlice.ts:118-123 | The list by plot or by cycle replaces the whole list; nothing else changes |
| ProductionsSlice.ProductionsState.FetchProductionSummaryFulfilled | src/store/slices/productionsSlice.ts:124-126 | Only the cycle summary changes |
| ProductionsSlice.ProductionsState.CreateProductionFulfilled | src/store/slices/productionsSlice.ts:127-131 | A non-null payload goes to the front; loading is not touched |
| ProductionsSlice.ProductionsState.UpdateProductionFulfilled | src/store/slices/productionsSlice.ts:132-142 | The first record with the payload's id is replaced in place and the selection follows it when it shows that id |
| ProductionsSlice.ProductionsState.DeleteProductionFulfilled | src/store/slices/productionsSlice.ts:143-148 | Every record with the id goes and the selection is cleared when it shows that id |
| CategoryFormScreen.ValidCategoryForm | src/screens/Cycles/CategoryFormScreen.tsx:27-34 | `categoryFormSchema`: a non-empty name, a cycle in 0..10 and non-negative productivity, revenue and costs |
| CategoryFormScreen.DefaultsNeedOnlyAName | src/screens/Cycles/CategoryFormScreen.tsx:27-67 | The default values fail the schema on the empty name alone; typing any name makes them valid |
| CategoryFormScreen.ExistingCategory | src/screens/Cycles/CategoryFormScreen.tsx:179-183 | A conflicting category is found exactly when some category of the watched cycle lists the plot and is not the one being edited; the one found is such a category |
| CategoryFormScreen.EditedCategoryNeverConflicts | src/screens/Cycles/CategoryFormScreen.tsx:179-183 | While a category is edited, a plot that only it holds in the watched cycle raises no conflict, whatever other categories the list holds |
| CategoryFormScreen.OtherHolderConflicts | src/screens/Cycles/CategoryFormScreen.tsx:179-183 | While a category is edited, any other category holding the plot in the watched cycle makes the conflict dialog appear |
| CategoryFormScreen.Without | src/screens/Cycles/CategoryFormScreen.tsx:170 | Filtering an id out of the selection removes that id and keeps every other id, adding none |
| CategoryFormScreen.WithoutAppend | src/screens/Cycles/CategoryFormScreen.tsx:170 | Filtering keeps the other ids in their order: it distributes over concatenation |
| CategoryFormScreen.WithoutKeepsNoDuplicates | src/screens/Cycles/CategoryFormScreen.tsx:170 | A duplicate-free selection stays duplicate-free after filtering |
| CategoryFormScreen.MoveLeavesPlotOnceAtEnd | src/screens/Cycles/CategoryFormScreen.tsx:195 | After "Mover" the plot is in the selection exactly once, at the end, and every other id is kept |
| CategoryFormScreen.PlotSelection.constructor | src/screens/Cycles/CategoryFormScreen.tsx:159-205 | The selection starts as the ids it is given |
| CategoryFormScreen.PlotSelection.RemovePlot | src/screens/Cycles/CategoryFormScreen.tsx:159-175 | Once the user confirms "Remover" every occurrence of the id goes; on "Cancelar" nothing changes |
| CategoryFormScreen.PlotSelection.AddPlot | src/screens/Cycles/CategoryFormScreen.tsx:177-205 | Without a conflicting category the id is appended; with one, "Mover" moves it to the end and "Cancelar" changes nothing |
| CategoryFormScreen.AvailablePlotsForCycle | src/screens/Cycles/CategoryFormScreen.tsx:207-212 | A plot is offered exactly when it is in the list, in the watched cycle and not selected yet |
| CategoryFormScreen.AvailableAppendKeepsNoDuplicates | src/screens/Cycles/CategoryFormScreen.tsx:202-212 | Adding an offered plot without a conflict never duplicates an id in the selection |
| CategoryFormScreen.SelectedPlots | src/screens/Cycles/CategoryFormScreen.tsx:214-216 | A plot is shown as selected exactly when it is in the list and its id is selected |
| CategoryFormScreen.OfferedOrSelected | src/screens/Cycles/CategoryFormScreen.tsx:207-216 | A plot of the watched cycle is either offered or shown as selected, never both |
| CategoryFormScreen.SelectedPlotsAppend | src/screens/Cycles/CategoryFormScreen.tsx:214-216 | Selected plots keep the plot list's order |
| CategoryFormScreen.CycleTypeName | src/screens/Cycles/CategoryFormScreen.tsx:218-233 | Cycles 0..10 get their label ("Reforma (0)" … "Décimo Corte (10)"); any other cycle gets "Ciclo n"; never empty |
| CategoryFormScreen.CycleOptions | src/screens/Cycles/CategoryFormScreen.tsx:235-238 | Eleven options, the i-th with value i and the label of cycle i |
| CategoryFormScreen.CycleOptionsMatchSchema | src/screens/Cycles/CategoryFormScreen.tsx:29-238 | The picker offers exactly the cycles the schema accepts (0 to 10) |
| PlotForm.ValidPlotForm | src/components/forms/PlotForm.tsx:16-33 | `plotFormSchema`: number 1..999, area 0.1..100 ha, cycle 0..5 and one of the four statuses |
| PlotForm.FormStatusesAreStatuses | src/components/forms/PlotForm.tsx:30 | The status enum accepts exactly the texts that name a plot status |
| PlotForm.DefaultValues | src/components/forms/PlotForm.tsx:59-68 | A new form opens with no number or area, cycle 0, status "new" and empty texts; `\|\|` turns a zero number, area or cycle into the fallback, and status is "new" exactly when absent or "new" |
| PlotForm.Submitted | src/components/forms/PlotForm.tsx:16-33 | The form hands the schema a record exactly when both number fields hold a value |
| PlotForm.NewFormIncomplete | src/components/forms/PlotForm.tsx:16-68 | A new plot's form cannot be submitted before a number and an area are typed |
| PlotForm.EditingValidPlotOpensValid | src/components/forms/PlotForm.tsx:16-68 | Editing a plot whose fields are in the schema's ranges opens a form that passes the schema, with the plot's own number, area, cycle and status |
| PlotForm.FormExpectedProductivity | src/components/forms/PlotForm.tsx:101-111 | The expected productivity lies between 0 and 110 t/ha and is 0 for any cycle outside 1..5 |
| PlotForm.FormProductivityAgreesWithTable | src/components/forms/PlotForm.tsx:101-111 | The form's productivity map agrees with the cycle reference table for every cycle |
| PlotForm.EstimatedRevenue | src/components/forms/PlotForm.tsx:310 | For a non-negative area the estimate is non-negative and at most 110 t/ha × R$ 179.76 × area |
| PlotForm.SummaryRevenue | src/components/forms/PlotForm.tsx:298-315 | The summary appears exactly while the area is non-zero, and then shows the estimated revenue |
| PlotForm.EstimateJustUnderStandardRevenue | src/components/forms/PlotForm.tsx:310 | For one hectare of cycles 0..5 the estimate is below the table's standard revenue by less than R$ 0.50 |
| ProductRegistrationForm.ValidProductForm | src/components/forms/ProductRegistrationForm.tsx:13-57 | `productRegistrationSchema`: name 1..200 and brand 1..100 characters, a listed category and type, optional enums from their lists, unit 1..10 characters and a non-negative cost |
| ProductRegistrationForm.TextOr | src/components/forms/ProductRegistrationForm.tsx:86-113 | `value \|\| fallback` on a text: the value unless it is absent or empty |
| ProductRegistrationForm.DefaultValues | src/components/forms/ProductRegistrationForm.tsx:85-115 | A new product is a chemical fertilizer sold by the kg at no cost, active; an edited one is active unless explicitly inactive; unit, category and type are never empty |
| ProductRegistrationForm.NewFormNeedsNameAndBrand | src/components/forms/ProductRegistrationForm.tsx:13-115 | A new form fails the schema, and passes it once a name and a brand of allowed length are typed |
| ProductRegistrationForm.EditingValidProductRoundTrips | src/components/forms/ProductRegistrationForm.tsx:13-115 | Opening the form on a product that satisfies the schema gives back exactly that product's fields |
| ProductRegistrationForm.BioInputSectionTriggers | src/components/forms/ProductRegistrationForm.tsx:383 | The bio-input section is hidden for a new form, shown when the category is "inoculant" or the type is "biological", and hidden otherwise |
| Entities.ParseStatus | src/types/entities.ts:9 | A stored text denotes a plot status only when it is that status's own name |
| Entities.StatusNameRoundTrip | src/types/entities.ts:9 | Every plot status survives being stored as text and read back |
| Sql.NonEmpty | src/database/models/PlotRepository.ts:74-81 | `text \|\| null`: NULL exactly when the text is absent or empty, otherwise the text itself |
| Sql.BuildAssignments | src/database/models/PlotRepository.ts:95-134 | The push loop of an `update` produces one bound assignment per supplied field, in field order |
| Sql.PlaceholdersMatchValues | src/database/models/PlotRepository.ts:134-142 | The rendered statement has exactly one `?` per bound value |
| Sql.ValueAfterSupplied | src/database/models/PlotRepository.ts:95-134 | After the pushed assignments, each column holds the value of the last field supplied for it |
| Sql.BoundValuesCount | src/database/models/CategoryRepository.ts:119-127 | The supplied fields followed by further assignments bind one value per supplied field, the further assignments' values and the id, one placeholder per value |
| ProductionRepository.ListedByPlot | src/database/models/ProductionRepository.ts:42-57 | Listing the rows of one plot yields only and every harvest of that plot |
| ProductionRepository.ListedByCycle | src/database/models/ProductionRepository.ts:59-74 | Listing the rows of one cycle yields only and every harvest of that cycle |
| CategoryRepository.JoinedPlotsUnlinked | src/database/models/CategoryRepository.ts:36-40 | A category with no link joins no plot |

## Left out

- `src/database/connection.ts` is not part of this model: the SQLite driver, its web stand-in and the global handle are platform I/O. Each repository method is one atomic step on the in-memory tables. Transactions never fail and are never rolled back. The model also assumes two things the source does not supply. The first is the atomic `executeTransaction` helper that `CategoryRepository.ts:1` and `SoilPreparationRepository.ts:1` import, which `connection.ts` does not export. The second is seven tables that `schema.ts` does not create: `categories`, `plot_categories`, `category_soil_preparations`, `category_history`, `soil_preparations`, `soil_preparation_actions` and `products`; their columns are taken from the repositories' own statements.
- Id and timestamp generation (`Date.now`, `Math.random`, `new Date()`, `CURRENT_TIMESTAMP`) is replaced by caller-supplied values. Methods that insert rows take the fresh ids as parameters; their uniqueness is a precondition only where a lemma needs it.
- Dates are kept as the ISO text the database stores. `new Date(text)` conversions are not modelled. `PlotForm.DefaultValues` takes the date formatting as a parameter `isoDate`.
- Plot `coordinates` are not in the plot record: they are an opaque JSON blob that no rule inspects. They are still assigned by `updatePlot` as a bound column.
- `JSON.stringify`/`JSON.parse` of list columns are the identity.
- `LIKE` (`Strings.Like`) follows SQLite's built-in defaults. It has no `ESCAPE` clause, so `%` and `_` in a search term stay wildcards, and only the ASCII letters fold case. The `case_sensitive_like` pragma and the ICU extension are not modelled, since the source enables neither.
- `ORDER BY` ties and join order are modelled as table order (a stable sort over the rows as stored). The engine leaves both unspecified.
- Numbers are exact `real`/`int`. IEEE-754 rounding, `parseFloat`/`parseInt` and `toFixed` are not modelled, and `Math.round` is floor of x + 1/2. `NaN` is `None` where the source divides 0 by 0. The one place where the source can meet `Infinity` is the revenue/cost ratio of `calculateOptimalPlotSize`. There the `Ratio` type (`OptimizationEngine.Divide`, `OptimizationEngine.Greater`) models ±Infinity, NaN and IEEE comparison. Every other division in the source is either guarded or a 0/0.
- The Intl-based formatters (`formatCurrency`, `formatNumber`, `formatDate`, `formatDateTime`, `formatArea`, `formatATR`, `formatPercentage`) are library calls and are left out. The number formatting inside `formatProductivity` is left out too; only its area guard is modelled.
- zod, react-hook-form, Redux Toolkit (`createAsyncThunk`, `configureStore`, Immer) and rendering are left out. The schemas are predicates, the reducer cases are methods, and a thunk's result is the argument of its reducer case.
- `PlotRepository.getPlotById` and `ProductionRepository.getProductionById` are not modelled separately. They only read a single row with the same mapping as the listings, and the slices receive their result as a payload.
- `getProductionSummaryByCycle` is left out: it is an SQL aggregate over LEFT JOINs whose grouping belongs to the engine. `ProductionsSlice` stores its payload without looking inside it.
- PlotForm.ValidPlotForm: plot numbers and cycles are `int`, so the model does not see the fractional numbers the schema would let through.
- CategoryFormScreen.ValidCategoryForm: the cycle is an `int`, so the model does not see the fractional cycles `z.number().min(0).max(10)` would let through.
- Formatters.TruncateString: lengths and the cut count Unicode scalar values, while JavaScript's `length` and `substring` count UTF-16 code units. The two agree on text inside the Basic Multilingual Plane (all Portuguese text); on text with characters outside it the source measures more and can cut a surrogate pair in half, which the model does not capture.
- Formatters.CapitalizeFirstLetter: `charAt(0)` takes one UTF-16 code unit, while the model takes one Unicode scalar value (they differ only outside the Basic Multilingual Plane). The case mapping covers the ASCII and Latin-1 letters; the rest of Unicode's case mapping (Greek, Cyrillic, `ß` to `SS`, `ÿ` to `Ÿ`) leaves characters unchanged in the model.
- ProductRegistrationForm.ValidProductForm: the length limits (200, 100, 10) count Unicode scalar values where zod counts UTF-16 code units, so a name with characters outside the Basic Multilingual Plane may pass here and fail in the source.
- The optional form fields that carry no constraint (registration data, supplier, dates, notes) are not modelled: no rule reads them.
- `SoilPreparationRepository.Create` stores the total cost the caller passes and does not recompute it, as the source does.
- `SoilPreparationRepository.UnitCost`: the product join assumes product ids are unique and reads the first row with the id. Soft-deleted products still price actions, as in the source.
- The inline aggregates of the dashboard and category-management screens, the data seeder and the debug helpers are left out. They only compose functions modelled here.
- Rows of tables that no core operation reads (ATR payments, harvest planning, cash flow, input applications) are not part of `Tables.Database`.

## Findings

| source | as written | input that shows it | evidently intended | confidence | as-written member | corrected member |
|---|---|---|---|---|---|---|
| src/database/models/CategoryRepository.ts:141-158 | `assignPlots` deactivates only the links of the category being assigned, so a plot stays active in another category of the same cycle. The category form's "Mover" (src/screens/Cycles/CategoryFormScreen.tsx:189-196) only edits the local selection, and its save (lines 131-145) calls `assignPlots` for the category being saved alone, so the move never releases the old link | categories "a" and "b" both of cycle 1; plot "p" active in "a"; `assignPlots("b", ["p"])` | a plot belongs to at most one active category per cycle, so assigning it to "b" releases its active link in "a" | not executed | CategoryRepository.AssignPlotsBreaksOneActivePerCycle | CategoryRepository.AssignPlotsMovingKeepsOneActivePerCycle |
| src/database/models/SoilPreparationRepository.ts:181-183 | `deleteAction` removes the action row but leaves the preparation's stored `total_cost` as it was | a preparation storing cost 6 whose only action is 3 units of a product at 2 per unit; delete that action | the stored total cost equals the sum of dosage × unit cost over its actions after every change to its action set, as `updateActions` ensures at lines 154-166 | not executed | SoilPreparationRepository.DeleteActionLeavesCostStale | SoilPreparationRepository.DeleteActionRecostingKeepsCostsConsistent |
