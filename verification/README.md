# Azure SQL consumption dashboard — a Dafny model

This project models the data pipeline behind the Azure SQL optimizer dashboard
(`main.py`). The dashboard builds two price tables: a provisioned-compute
(vCore) table that it only displays, and a DTU table whose hourly prices it
converts in place to monthly prices (24 × 31 hours). It then reads `data.csv`
three times, once per section:

- **DTU consumption.** The frame is changed in place. It gains a `DTU Used
  Percentage` column (average ÷ limit × 100) and a `Price` column looked up by
  service objective in the monthly DTU catalog. It then loses the
  `sql_instance_memory_percent` and `Percentage CPU` columns. The rows whose
  `databaseSkuName` starts with `Standard` are selected. The section shows
  their mean percentage, the count of their database names and the sum of
  their prices.
- **vCore consumption.** The rows whose SKU starts with `GP` are selected. The
  section shows their mean `Percentage CPU` and the count of their names.
- **SKU overview.** A bar chart of `databaseSkuName.value_counts()`.

pandas' treatment of missing cells is written out explicitly:

- `count` counts present cells.
- `sum` adds present values, and is 0 when there are none.
- `mean` is undefined (`None` for NaN) when no value is present.
- `value_counts` ignores missing cells.
- `Series.map` gives a missing value for an unknown key.

pandas' exceptions are modelled as results:

- `KeyError` for an absent column.
- A mask error when a SKU is missing, because `str.startswith` then yields NaN
  and boolean indexing refuses it.

Modules:

- `Wrappers`: `Option`, `Result` and `Outcome`.
- `Decimal`: Python's `float(text)` on plain decimal text. It includes a
  reference rendering and the parse-after-render round trip.
- `Pricing`: the two price tables. The class `DtuPriceTable` has its price
  column overwritten in place. Also here are the monthly DTU catalog and the
  method that builds it.
- `Series`: `count`, `sum`, `mean` and `value_counts` over cells that may be
  missing.
- `Frame`: rows, tables and the row-level enrichment. The class `Frame` is the
  data frame that the DTU section mutates in place.
- `Query`: the SKU-prefix selection.
- `Dashboard`: the three sections and the page. Each is a specification
  function, and the DTU section and the page are also methods proved equal to
  those functions.

Behaviour that follows the code rather than a reading of its comments:

- `drop(columns=[...])` raises `KeyError` when the column is absent. So the DTU
  section requires both `sql_instance_memory_percent` and `Percentage CPU`,
  even though it never reads them.
- `Series.sum` skips missing values. So an unknown service objective adds
  nothing to the total price; it does not turn the total into NaN.
- A missing `databaseSkuName` makes the prefix mask hold NaN, and pandas
  refuses to index with it. So a single missing SKU stops the page. The row is
  not quietly excluded.
- Each section reads the CSV afresh. The vCore section therefore sees
  `Percentage CPU` even though the DTU section dropped it. Every column a later
  section reads is also read by the DTU section, so the page renders exactly
  when the DTU section does (`Dashboard.PageSucceeds`).

## Model

| member | source | states |
|---|---|---|
| Decimal.ParseText | main.py:47 | `float` applied to the decimal text of units / 10^scale gives back exactly that number (round trip of the reference rendering) |
| Decimal.ScaledQuotient | main.py:47 | dividing the digits read as one number by ten once per fraction digit is dividing by 10^k, so `Parse` yields the exact decimal the text shows |
| Decimal.ParseFourPlaces | main.py:43-47 | every text of the form d.dddd, the shape of all nine DTU prices, converts to the decimal it shows |
| Pricing.Monthly | main.py:47 | `astype(float) * 24 * 31` succeeds iff every cell converts; it then keeps the length and gives each cell's value times 744 |
| Pricing.MonthlyOfConvertible | main.py:47 | a column whose cells all convert to known values is scaled cell by cell |
| Pricing.HourlyTextParses | main.py:43-47 | each of the nine hourly price texts converts to its decimal value |
| Pricing.HourlyColumnConverts | main.py:43-47 | the conversion never fails on the DTU table as written and yields each hourly price times 24 × 31 |
| Pricing.DtuPriceTable.constructor | main.py:39-44 | the DTU table starts with the nine tiers in order and the hourly prices as text |
| Pricing.DtuPriceTable.ConvertToMonthly | main.py:47 | the price column is overwritten in place with the monthly numbers when every cell converts; otherwise nothing changes; the tier column never changes |
| Pricing.DtuPriceTable.PriceSeries | main.py:63 | `set_index('DTUs')[price]` has exactly the tier names as keys |
| Pricing.Index | main.py:63 | the lookup table built from a key column has exactly those keys |
| Pricing.IndexAt | main.py:63 | with distinct keys, each key looks up the value in its own row |
| Pricing.LoadDtuCatalog | main.py:39-47 | building and converting the table in place yields the monthly catalog and never raises |
| Pricing.DtuCatalogPrices | main.py:40-47 | the catalog's keys are exactly S0, S1, S2, S3, S4, S6, S7, S9 and S12, and each maps to its hourly price times 24 × 31 |
| Pricing.ConvertedCatalog | main.py:47-63 | after the conversion every price cell is a number, one per tier, and the price series of the table is the monthly catalog |
| Pricing.DtuCatalogExamples | main.py:40-47 | S0, S1 and S12 are catalog keys and cost 15.0288, 30.0576 and 4500.3072 per month |
| Series.Mean | main.py:79 | the mean is undefined exactly when no value is present; otherwise mean × count equals the sum of the present values |
| Series.SkipMissing | main.py:82-85 | `count` is the number of values `dropna` keeps and `sum` is their sum, so missing cells add nothing |
| Series.CountBounds | main.py:82 | the count is at most the number of cells; it equals it iff no cell is missing, and is 0 iff every cell is missing |
| Series.CountAppend | main.py:82 | the count of two stretches of cells is the sum of their counts |
| Series.PresentAppend | main.py:79-85 | `dropna` of two stretches is the concatenation of their `dropna` |
| Series.TotalBounds | main.py:85 | present values within [lo, hi] sum to between lo × count and hi × count |
| Series.MeanBounds | main.py:79 | the mean of present values within [lo, hi] lies within [lo, hi] |
| Series.ValueCountsFacts | main.py:113 | `value_counts` has one group per distinct present value; each group counts exactly that value's cells (so at least 1); the counts add up to the number of present cells |
| Frame.UsedPercentage | main.py:60 | the percentage is defined iff the average and the limit are present and the limit is non-zero; then percentage × limit = average × 100 |
| Frame.TierPrice | main.py:63 | `map` gives a price iff the service objective is present and is a catalog key, and then that key's price |
| Frame.MapRows | main.py:60-63 | a column assignment keeps the number and order of rows, and row i of the result depends on row i alone |
| Frame.WithColumn | main.py:60-63 | assigning a column adds its name and keeps every other name |
| Frame.Without | main.py:66-69 | dropping a column removes exactly that name |
| Frame.WithUsedPercentage | main.py:60 | raises KeyError for `DTU Used Average`, then for `DTU Limit`, when absent; otherwise it adds the column and fills each row from that row |
| Frame.WithPrice | main.py:63 | raises KeyError when `CurrentServiceObjectiveName` is absent; otherwise it adds `Price` row by row, and an unknown tier's row stays with a missing price |
| Frame.DropColumn | main.py:66-69 | raises KeyError iff the column is absent; otherwise the rows are unchanged and only that column goes |
| Frame.Frame.constructor | main.py:57 | the frame holds the CSV contents as read |
| Frame.Frame.AddUsedPercentage | main.py:60 | in place: on success the frame becomes `WithUsedPercentage` of its old state; on KeyError it is unchanged |
| Frame.Frame.AddPrice | main.py:63 | in place: on success the frame becomes `WithPrice` of its old state; on KeyError it is unchanged |
| Frame.Frame.Drop | main.py:66-69 | in place: on success the frame becomes `DropColumn` of its old state; on KeyError it is unchanged |
| Query.KeepPrefix | main.py:73 | the selection keeps no more rows than it is given, and a row is kept iff it is one of them and its SKU starts with the prefix |
| Query.Kept | main.py:73 | the kept positions are in range, strictly increasing, and a position is kept iff its row's SKU starts with the prefix |
| Query.KeepPrefixSelects | main.py:73 | result j of the selection is the row at the j-th kept position, so the selection is exactly the matching rows in their original order |
| Query.KeepPrefixIdempotent | main.py:73 | selecting twice with the same prefix equals selecting once |
| Query.StandardAndGeneralPurposeDisjoint | main.py:73-93 | no row is shown by both the DTU section and the vCore section |
| Query.Where | main.py:73 | raises KeyError without the SKU column and the mask error when a SKU is missing; otherwise keeps every column and exactly the matching rows |
| Query.WhereIdempotent | main.py:93 | applying a successful selection to its own result gives that result again |
| Dashboard.EnrichAll | main.py:60-63 | every row gets its own percentage and price, and the number and order of rows are kept |
| Dashboard.DtuConsumption | main.py:57-85 | the DTU section, run on a `Frame` changed in place, computes exactly `DtuOverviewOf` |
| Dashboard.EnrichmentSucceeds | main.py:60-69 | the enrichment succeeds iff its five input columns are present; otherwise the KeyError names one of them that is absent |
| Dashboard.EnrichmentResult | main.py:60-69 | after enrichment the rows are the input rows, each filled in from itself; the header gains the two new columns and loses the two dropped ones |
| Dashboard.SummarySucceeds | main.py:73-85 | the summary succeeds iff the SKU and name columns are present and no SKU is missing, and each failure is one of those three |
| Dashboard.SummaryShows | main.py:73-85 | the summary shows the `Standard` rows in order; it counts their present names (at most the number of rows), sums their present prices, and averages their percentages, which is undefined iff none is defined |
| Dashboard.ShownColumns | main.py:79-85 | on any rows, the name count is at most the number of rows, the price total is the sum of the present prices, and the mean percentage is undefined iff no row has one |
| Dashboard.SummaryDecides | main.py:60-85 | after a successful enrichment, the summary's success and its failure are decided by the columns and SKUs of the data as read |
| Dashboard.DtuOverviewSucceeds | main.py:57-85 | the DTU section succeeds iff all seven columns it reads are present and no SKU is missing; a failure names an absent one of those columns, or is the mask error |
| Dashboard.DtuOverviewShows | main.py:57-85 | on success the DTU section shows the enriched `Standard` rows in order, the count of their names, the sum of their known prices and the mean of their defined percentages |
| Dashboard.PercentageWithinLimit | main.py:60 | an average within [0, limit] gives a percentage within [0, 100] |
| Dashboard.MeanWithinLimits | main.py:60-79 | when every average is within its limit, the mean percentage of the shown rows is within [0, 100] |
| Dashboard.DtuAverageWithinLimits | main.py:60-79 | when every database's average is within its limit, the reported average percentage is within [0, 100] |
| Dashboard.DtuTierPrice | main.py:47-63 | against the monthly catalog, tier `DTU_TIERS[i]` gets the i-th hourly price times 24 × 31, and any other or missing objective gets no price |
| Dashboard.VcoreOverviewFacts | main.py:90-102 | the vCore section succeeds iff the SKU, CPU and name columns are present and no SKU is missing; it then shows the `GP` rows of the fresh data in order, its average is the mean of their `Percentage CPU` cells (undefined iff none is present), and its database count is the number of their present names, at most one per row |
| Dashboard.SkuCountsFacts | main.py:109-113 | the chart fails iff the SKU column is absent; otherwise there is one bar per distinct present SKU, each bar is as tall as that SKU's number of rows, and the bars add up to the number of rows with a SKU |
| Dashboard.Render | main.py:39-113 | the page, with the catalog built in place and the DTU section run on a mutated frame, computes exactly `PageOf` |
| Dashboard.PageSucceeds | main.py:54-113 | the page renders iff the DTU section succeeds, and otherwise fails with the DTU section's error |
| Dashboard.ExamplePrefixes | main.py:73 | in the example, the two `Standard_` SKUs match `Standard` and `GP_Gen5_2` does not |
| Dashboard.ExampleEnriched | main.py:60-63 | in the example, the Standard rows get 50% and 20% and the S1 and S0 prices |
| Dashboard.ExampleSucceeds | main.py:57-85 | the DTU section succeeds on the example data |
| Dashboard.KeepFirstAndLast | main.py:73 | three rows of which only the first and last match are selected as exactly those two, in order |
| Dashboard.TwoShown | main.py:79-85 | two shown rows at 50% and 20% average 35%, count 2 names and total their two prices |
| Dashboard.ThreeDatabases | main.py:57-85 | Standard S1 at 50/100, GP at 20/40 and Standard S0 at 10/50: two rows shown, mean 35%, two databases, total = S1 price + S0 price |
| Dashboard.ThreeDatabasesPriced | main.py:47-85 | with the real catalog, that example's total price is 45.0864 |

## Left out

- The Azure credential and the PowerShell script run at main.py:5-22: these are I/O and an external process. The model starts at the price tables.
- Streamlit output: titles, layout, tables, `st.write` and the bar chart. The model computes the figures each widget shows. The displayed vCore table (main.py:31-37) is the constant `Pricing.VCORE_TIERS`; nothing joins against it.
- `background_gradient` styling at main.py:76 and 96: it is presentation only. Under Streamlit it also reads `DTU Used Average` in the vCore section, and the model does not require that column there.
- The `Included storage` and `Max storage` columns of the DTU table: they are display-only text.
- `read_csv`: the file's contents are the parameter `data`, with typed cells. CSV parsing, dtype inference and non-numeric cells in numeric columns are not modelled. A `Row` carries only the nine columns the dashboard reads or writes, so `shown` holds those cells of the selected rows; the other CSV columns that `st.dataframe` would also display are not modelled.
- Decimal.Parse: it covers plain decimal text with ASCII digits only, and gives `None` on anything else. Python's `float` also accepts signs, exponents, surrounding spaces, underscores, non-ASCII decimal digits, `inf` and `nan`, which the table never uses.
- Frame.UsedPercentage: arithmetic is exact over the reals, so binary floating-point rounding is not modelled. A zero `DTU Limit` gives an undefined percentage, which the mean skips. pandas gives ±inf for a non-zero average over a zero limit, and that would make the mean infinite.
- Pricing.Index: with a repeated key the first row wins, whereas `Series.map` raises on a non-unique index. The DTU table's keys are distinct (`Pricing.DtuTiersDistinct`), so the dashboard never reaches that case.
- Query.Where: an SKU column that is entirely missing makes pandas raise AttributeError from `.str`, not the mask error. Both are folded into `MissingSku`. Non-string SKU values are not modelled.
- Series.ValueCountsFacts: pandas orders `value_counts` by descending count. The model keeps first-appearance order and proves the contents: keys, counts and total.
- Dashboard.Render: when a section raises, the widgets already drawn stay on the page. The model returns only the error.
