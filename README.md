# crudeassay refining core, modelled in Dafny

This project models the two computations of the crudeassay refining profit calculator.

- **run_optimization**:
  - classifies each crude cut of an assay as a refined product (Gasoline, Jet/Kero, Diesel or Fuel Oil);
  - left-joins the cuts to a benchmark price table on the chosen region's column, filling a missing price with 0;
  - nets every row's price of the processing and freight cost per barrel;
  - returns the slate and the profit per barrel of the whole assay.
- **run_sensitivity_analysis**:
  - re-runs the optimizer once for each price-table row and each shock of -10% and +10%, each time on a copy of the price table with only that product's regional price scaled;
  - records each change in profit per barrel under a label;
  - ranks the changes by absolute size with a stable sort.

Files and modules:

- `frames.dfy` (module `Frames`):
  - the two tables as values;
  - the pandas data frames the code updates in place: `AssayFrame`, whose "Allocated Product" column `run_optimization` assigns, and `PriceFrame`, which the sensitivity loop copies and writes with `.loc`.
- `optimizer.dfy` (module `Optimizer`):
  - `map_cut_to_product`;
  - the validation order and the error kinds;
  - the left join, including the fan-out when a Product appears in several price rows;
  - the profit and unmatched-product computations;
  - `Optimize`, the function that specifies `run_optimization`, and `RunOptimization`, the method on frames;
  - the slate lemmas.
- `sensitivity.dfy` (module `Sensitivity`):
  - the shock and its label;
  - the collection order of the effects;
  - the stable ranking;
  - `Sensitivity`, which specifies the analysis;
  - the three nested steps of the loop as methods on frames (`RunShock`, `RunProductShocks`, `RunAllShocks`) and `RunSensitivityAnalysis`.
- `impacts.dfy` (module `Impacts`): what a shock does to profit per barrel.
  - A product no cut is allocated to has impact 0.
  - With unique Product keys the impact has a closed form.
  - The two shocks of a product have opposite impacts.
- `worked_example.dfy` (module `WorkedExample`): a two-cut assay, computed through the model.

Modelling choices:

- Volumes, prices and costs are `real`.
- An empty (NaN) price cell is a column missing from the row's `cells` map.
- The assay's Cut cell is either a string or something else (`NonText`).
- pandas' `is_numeric_dtype` check is the flag `volumeNumeric`.
- `str.lower()` is modelled exactly for what can affect the lookup. ASCII capitals become small letters and the Kelvin sign becomes `k`. No other character lower-cases to ASCII letters only.
- The sensitivity re-runs use the default base cost of 50, as the code does.

Three behaviours of the code that the model keeps:

- `run_optimization` writes the "Allocated Product" column into the caller's assay frame (modules/optimizer.py:40). `RunOptimization` and `RunSensitivityAnalysis` say so in their `modifies` and `ensures` clauses.
- The analysis makes one pair of effects per row of the price table's Product column (modules/sensitivity.py:7). A product listed twice contributes four effects, and `Sensitivity` returns 2 × rows effects.
- The analysis reads the Product column before its base run (modules/sensitivity.py:7-8). A price table without that column fails with a KeyError, `MissingProductColumn`, whatever else is wrong with the inputs.

## Model

| member | source | states |
|---|---|---|
| Frames.SetCell | modules/sensitivity.py:15 | The row keeps its Product. Its cell in the column becomes the new value, and None empties it. Every other cell is unchanged. |
| Frames.AssignRows | modules/sensitivity.py:15 | `.loc[Product == p, column] = v` on the rows. Length and Product column are unchanged. Rows of other products are untouched. Every row of p holds v in the column. No other column changes. |
| Frames.WithProductCells | modules/sensitivity.py:15 | The table after `.loc[Product == p, column] = v`. The column is added to the table's columns, as pandas does for a column it lacks. The number of rows and every row's Product are kept. Rows of other products are unchanged. Every row of p holds v in the column. Every other cell is unchanged. |
| Frames.AssayFrame.AssignAllocated | modules/optimizer.py:40 | Assigning the "Allocated Product" column leaves the caller's Cut and Volume data unchanged and stores exactly the given column. |
| Frames.PriceFrame.Copy | modules/sensitivity.py:14 | `copy()` returns a fresh frame with the same contents. |
| Frames.PriceFrame.AssignProductCells | modules/sensitivity.py:15 | The in-place `.loc` write leaves the frame holding `WithProductCells` of its old contents. |
| Optimizer.Lower | modules/optimizer.py:16 | `Lower` keeps the length, leaves no capital ASCII letter and no Kelvin sign, and leaves a lower-case word unchanged. |
| Optimizer.MapCutToProduct | modules/optimizer.py:4-17 | The result is always one of Gasoline, Jet/Kero, Diesel and Fuel Oil. A cell that is not a string gives Fuel Oil. |
| Optimizer.LowerIsKeyIffSpells | modules/optimizer.py:16 | A string lower-cases to a lower-case key exactly when it spells that key letter by letter in any mixture of cases. |
| Optimizer.CutClassification | modules/optimizer.py:6-17 | Classification is case-insensitive, stated both ways for each product. Gasoline exactly for spellings of naphtha, Jet/Kero for kero or kerosene, Diesel for diesel. Fuel Oil for non-strings and everything else, resid included. |
| Optimizer.GasolineExamples | modules/optimizer.py:6-17 | Naphtha, NAPHTHA and naphtha give Gasoline. |
| Optimizer.JetKeroExamples | modules/optimizer.py:6-17 | Kero and KEROSENE give Jet/Kero. |
| Optimizer.DieselAndFuelOilExamples | modules/optimizer.py:6-17 | diesel gives Diesel. Resid, an unknown name and a non-string give Fuel Oil. |
| Optimizer.Validate | modules/optimizer.py:22-31 | No error exactly when the assay has Cut and Volume, the price table has Product and the region column, Volume is numeric and neither frame is empty. A validation error is never the wrapped kind. |
| Optimizer.Optimize | modules/optimizer.py:19-63 | Success exactly when validation passes and total volume is non-zero. A validation error is raised as is. A zero total volume fails wrapped as OptimizationFailed(ZeroTotalVolume). On success, profit per barrel times total volume is the slate's total profit. |
| Optimizer.RunOptimization | modules/optimizer.py:19-63 | The method returns what `Optimize` gives on the caller's tables. Cut and Volume data are unchanged. The Allocated Product column is assigned exactly when the run gets past the checks. |
| Optimizer.Allocations | modules/optimizer.py:40 | The "Allocated Product" column has one entry per assay row. Each entry is one of the four products, and it is Fuel Oil for every row whose Cut is not a string. |
| Optimizer.Fill | modules/optimizer.py:44 | `fillna(0)` keeps a filled price. The result is 0 exactly when the cell is empty or holds 0, so afterwards the two cannot be told apart. |
| Optimizer.TotalVolumeZero | modules/optimizer.py:35-37 | With no negative volume the total is never negative. It is 0, the case that fails, exactly when every cut's volume is 0. |
| Optimizer.Unmatched | modules/optimizer.py:49 | A product is listed exactly when some slate row of it has a filled price of 0, and each product is listed once. |
| Optimizer.NoMatches | modules/optimizer.py:43 | A product with no price row matches nothing in the merge, and its lookup is empty. |
| Optimizer.MatchesMeaning | modules/optimizer.py:43 | The merge finds no price row exactly when no row has the product, and never more rows than the table has. Its first match is the cell a lookup of the product finds. |
| Optimizer.UniqueMatch | modules/optimizer.py:43 | With unique Product keys the merge finds the product's first region cell if it has a row, and nothing otherwise. |
| Optimizer.UnpricedRow | modules/optimizer.py:43-46 | A cut whose product has no price row gives one slate row with price 0 and profit −(base + freight) × volume. |
| Optimizer.JoinRowShape | modules/optimizer.py:43-44 | The left join of one cut gives one slate row per matching price row, at that row's filled price, or a single row at price 0 when the product has no row. Every row keeps the cut, the product and the volume. |
| Optimizer.JoinShape | modules/optimizer.py:43-46 | `Join`, the whole left merge, loses no cut: at least one slate row per assay row, each for one of the allocated products. |
| Optimizer.UniqueJoinRow | modules/optimizer.py:43-46 | With unique keys a cut gives exactly one slate row, at its product's filled region price. |
| Optimizer.UniqueJoin | modules/optimizer.py:43-46 | With unique keys the join has one row per assay row, in order. Row i is cut i priced at its product's region price. |
| Optimizer.JoinRowProfits | modules/optimizer.py:46 | Every row a cut joins to has profit (price − cost) × volume. |
| Optimizer.JoinProfits | modules/optimizer.py:46 | Every slate row has profit (price − cost) × volume, even when the join fans out. |
| Optimizer.EvaluatedResult | modules/optimizer.py:35-61 | What `Evaluate` returns after validation: profit per barrel times total volume is the slate's total profit. The slate has a row for every cut, and every product reported unmatched is an allocated product. |
| Optimizer.SlateFollowsAssay | modules/optimizer.py:40-54 | With unique keys the slate has one row per assay row, in assay order. Each row keeps its Cut and Volume and carries `map_cut_to_product(Cut)`, that product's region price (0 when missing) and the net profit. |
| Optimizer.TotalProfitAppend | modules/optimizer.py:55 | The total profit of two slates put together is the sum of their totals. |
| Optimizer.UniqueJoinRowProfit | modules/optimizer.py:46 | With unique keys, a cut's slate profit is (region price − cost) × volume. |
| Optimizer.JoinProfitIsNetValue | modules/optimizer.py:46-55 | With unique keys the slate's total profit is the sum over cuts of margin × volume. |
| Optimizer.NetValueIsSalesLessCost | modules/optimizer.py:46-55 | The summed margins are the sales value less cost × total volume. |
| Optimizer.ProfitIsRevenueLessCost | modules/optimizer.py:46-55 | With unique keys the slate's total profit is the assay's revenue less cost × total volume. |
| Optimizer.ProfitPerBarrelIsMargin | modules/optimizer.py:55-56 | With unique keys, profit per barrel is the volume-weighted average region price less base and freight cost. |
| Optimizer.UnmatchedAreZeroPriced | modules/optimizer.py:44-49 | With unique keys, the unmatched products are exactly the allocated products whose filled region price is 0. That covers missing, empty and explicit 0 alike. |
| Sensitivity.Label | modules/sensitivity.py:18 | A label is the product, followed by " +10%" for a rise and " -10%" otherwise. |
| Sensitivity.ProductsListed | modules/sensitivity.py:7 | The list the analysis loops over has one entry per price row. A product is in it exactly when some price row has it. |
| Sensitivity.Scale | modules/sensitivity.py:15 | Scaling a cell keeps it empty or filled, and a factor of 1 changes nothing. |
| Sensitivity.Shock | modules/sensitivity.py:12-15 | The shocked table adds no column when the region column exists, and keeps its length and Product column. Other products' rows are untouched. Each row of the product holds the first matching row's value times 1 + d (empty stays empty). No other column changes. |
| Sensitivity.ImpactIsRerun | modules/sensitivity.py:16-17 | `Impact` is what re-running the optimizer on the shocked copy returns, less the base. Once the inputs are valid, that re-run never fails. |
| Sensitivity.Collect | modules/sensitivity.py:6-19 | The collected effects number exactly two per entry of the Product column. |
| Sensitivity.CollectOrder | modules/sensitivity.py:11-19 | Effects come in Product-column order, each product's -10% effect and then its +10% effect. |
| Sensitivity.ShockLabels | modules/sensitivity.py:18 | The labels of the two shocks are "<product> -10%" and "<product> +10%". |
| Sensitivity.CollectTitles | modules/sensitivity.py:18-19 | Entry 2i of the collected effects is titled "<product i> -10%" and entry 2i + 1 "<product i> +10%". |
| Sensitivity.CollectSnoc | modules/sensitivity.py:11-19 | Collecting one more product appends exactly its two effects. |
| Sensitivity.InsertByAbsImpact | modules/sensitivity.py:22 | One insertion of the sort gives the effects of the list plus the new effect: none lost, none repeated. |
| Sensitivity.RankedCons | modules/sensitivity.py:22 | An effect at least as large as every effect of a ranked list can go first. |
| Sensitivity.InsertKeepsRanking | modules/sensitivity.py:22 | Inserting into a list ranked by descending absolute impact keeps it ranked. |
| Sensitivity.InsertIsStable | modules/sensitivity.py:22 | Insertion puts the new effect ahead of the effects of equal absolute impact that come after it in the input. |
| Sensitivity.InsertStep | modules/sensitivity.py:22 | One step of the sort keeps the result ranked, a permutation and stable. |
| Sensitivity.SortByAbsImpact | modules/sensitivity.py:22 | The sort `key=abs, reverse=True` gives a ranking by non-increasing absolute impact and a permutation of its input. Effects of equal absolute impact stay in input order. |
| Sensitivity.Sensitivity | modules/sensitivity.py:5-22 | A price table without a Product column fails with the KeyError first. Otherwise the analysis fails exactly when the base run fails, with the same error. On success it returns 2 × rows effects, ranked. |
| Sensitivity.ShockedRunSucceeds | modules/sensitivity.py:14-16 | Once the base run passes, every re-run on a shocked copy succeeds, so no shock raises. |
| Sensitivity.RunShock | modules/sensitivity.py:12-18 | One pass: the effect is the labelled change of profit per barrel on a copy shocked from the first matching row's price. The assay data is unchanged and its Allocated Product column assigned. |
| Sensitivity.RunProductShocks | modules/sensitivity.py:12-19 | The inner loop returns exactly the product's two collected effects, -10% first. |
| Sensitivity.SensitivityRanksCollected | modules/sensitivity.py:22 | A successful analysis is ranked, a permutation of the collected effects, and keeps their order among equal absolute impacts. |
| Sensitivity.RunAllShocks | modules/sensitivity.py:7-19 | The outer loop returns exactly the effects collected for the Product column, in order. |
| Sensitivity.RunSensitivityAnalysis | modules/sensitivity.py:5-22 | The method returns what `Sensitivity` gives on the caller's tables, the missing-Product KeyError included. The caller's price frame is never written. The assay data is unchanged, and its Allocated Product column is assigned exactly when the analysis succeeds. |
| Impacts.MatchesOfOtherProduct | modules/sensitivity.py:15 | Writing one product's cells leaves every other product's merge matches as they were. |
| Impacts.FirstCellAfterAssign | modules/sensitivity.py:12-15 | After the write, a lookup of the product finds the written value when the table has the product. Every other lookup is unchanged. |
| Impacts.ShockedRegionPrice | modules/sensitivity.py:12-15 | Shocking a product by d raises its filled region price by d times that price. Every other product's price is unchanged. |
| Impacts.ShockedPrices | modules/sensitivity.py:12-15 | The same, for every product at once: only the shocked product's price changes. |
| Impacts.JoinUnexposed | modules/optimizer.py:43-46 | Rows allocated to other products join the same with or without a write to a product's cells. |
| Impacts.NoExposureNoImpact | modules/sensitivity.py:16-17 | A product that no cut is allocated to has impact 0, whatever the shock. |
| Impacts.UnexposedEffectsAreZero | modules/sensitivity.py:11-19 | In a successful analysis, both collected effects of a price row whose product no cut is allocated to are 0. |
| Impacts.SalesIsDot | modules/optimizer.py:43-46 | The sales value is the volumes weighted by the list of allocated products' region prices. |
| Impacts.DotShift | modules/optimizer.py:46 | Raising the price of the rows of one product by k raises the weighted sum by k per barrel of those rows. |
| Impacts.SalesShift | modules/sensitivity.py:15-16 | A table that prices one product k higher and the rest the same raises the sales value by k per exposed barrel. |
| Impacts.ExposedShiftIsScaled | modules/sensitivity.py:15-16 | That rise is k times the volume allocated to the product. |
| Impacts.RevenueShift | modules/sensitivity.py:15-16 | The assay's revenue rises by the same amount. |
| Impacts.RepricedProfit | modules/sensitivity.py:16-17 | With unique keys in both tables, profit per barrel changes by that rise divided by total volume. |
| Impacts.ShockKeepsUnique | modules/sensitivity.py:14-15 | A shocked copy keeps the Product column, so unique keys stay unique. |
| Impacts.ImpactClosedForm | modules/sensitivity.py:12-17 | With unique keys a shock's impact is the sum, over cuts allocated to the product, of d × its region price × volume, divided by total volume. ExposedShiftIsScaled gives this sum as d × price × exposed volume. |
| Impacts.ExposedShiftOpposite | modules/sensitivity.py:15 | An opposite rise gives the opposite shift. |
| Impacts.OppositeShares | modules/sensitivity.py:6 | The per-barrel shifts of the -10% and +10% shocks are opposite. |
| Impacts.OpposedShocksCancel | modules/sensitivity.py:6-17 | With unique keys, a product's -10% and +10% impacts are exact opposites. |
| WorkedExample.ExampleAllocations | modules/optimizer.py:4-17 | Cuts Naphtha and Diesel are allocated to Gasoline and Diesel. |
| WorkedExample.ExampleRegionPrices | modules/optimizer.py:43-44 | In the example table Gasoline is priced at 90 and Diesel at 80. |
| WorkedExample.ExampleSlate | modules/optimizer.py:19-61 | 1000 bbl of Naphtha and 2000 bbl of Diesel give slate rows with profits 40000 and 60000. Profit per barrel is 100000 / 3000 and nothing is unmatched. |
| WorkedExample.ExampleDieselExposure | modules/optimizer.py:35-46 | The example's total volume is 3000 bbl. Raising Diesel's price by 8 raises its sales by 16000, on its 2000 bbl. |
| WorkedExample.ExampleDieselShock | modules/sensitivity.py:12-17 | Shocking Diesel by +10% (80 to 88) changes profit per barrel by 16 / 3. |

## Left out

- modules/optimizer.py holds its content twice, fused at line 63 where the second copy's first import follows the first copy's last line. The model and every citation follow the first copy, lines 1-63.
- Optimizer.Lower: non-ASCII characters other than the Kelvin sign are left as they are, even where Python's `str.lower()` would change them (É to é) or lengthen the string (İ to i followed by U+0307). This cannot change the lookup: every key of the cut table is ASCII, and no such character lower-cases to ASCII letters only.
- modules/utils.py, modules/modules/utils.py and app.py are not part of this model. They hold CSV loading, file and environment lookups, caching and the Streamlit interface.
- The freight cost comes from a logistics calculation that is not part of this model. It is a real parameter.
- The Plotly bar chart (modules/sensitivity.py:24-28) is not modelled. The model returns the ranked (label, impact) sequence that the chart draws.
- `logging.warning` (modules/optimizer.py:14, 50-51) is a side effect and is not modelled. The unmatched products are returned as a value of the result instead.
- Exception messages are left out. Errors are the constructors of `OptError`, which also holds the sensitivity analysis's KeyError for a missing Product column. The `except` clause is modelled only for the zero-volume error raised inside it. Other exceptions pandas might raise inside the `try` block do not occur in the model.
- Floating point is left out: rounding, overflow, NaN volumes, and NaN arising in arithmetic. The only NaN is a missing price cell, and fillna(0) turns it into 0.
- Column-name collisions in the merge (a region column named "Cut" or "Volume", say) and pandas' suffixing of clashing columns are not modelled.
- A price row whose Product cell is not a string is not modelled. For such a row, `Product == product` can match nothing, and `.values[0]` would raise IndexError (modules/sensitivity.py:12).
- Sensitivity.Scale: a NaN original price times the factor stays NaN. This is modelled as an empty cell staying empty.
- Impacts.ImpactClosedForm and Impacts.OpposedShocksCancel hold only for price tables with unique Product keys. When keys repeat, the left join fans a cut out into several slate rows, and the impact no longer has this form. The model computes that case but does not state a closed form for it.
