# AVDP impact dashboard — data pipeline model

`avdp_dashboard.py` is a single dashboard page for the AVDP programme
(climate-smart agriculture and value chains). Behind its widgets and charts
sits a small data pipeline, which this project models in Dafny and proves
properties of:

- a hard-coded table of six intervention records (Region, Value Chain, CSA
  Practice, Farmers Trained, Women %, Youth %, Yield Before, Yield After);
- a data frame built from it, to which a derived "Yield Increase (%)" column,
  `(after - before) / before * 100`, is added in place;
- the two drop-down option lists: `"All"` followed by the distinct values of
  the Region / Value Chain column in order of first appearance;
- the wildcard filter: the frame is copied, then masked on Region unless the
  region choice is `"All"`, then masked on Value Chain unless that choice is
  `"All"`;
- the indicators over the filtered rows: total farmers trained (an integer
  sum) and average women participation (a mean).

Modules:

- `Records` (`records.dfy`): the record type, the table, the yield-increase
  computation.
- `Frame` (`frame.dfy`): rows, the `DataFrame` class (constructed, given the
  derived column in place, copied, masked on one column), column projection
  and the one-column mask `KeepWhere`, and the subsequence relation.
- `Options` (`options.dfy`): order-preserving de-duplication (`Unique`) and
  the option lists.
- `Filters` (`filters.dfy`): the conjunctive wildcard filter, specified once
  as a one-pass selection `Selected`, and the stepwise `ApplyFilters` that
  mirrors the page and is proved equal to it.
- `Kpi` (`kpi.dfy`): the farmers total and the women-participation mean.
- `Dashboard` (`dashboard.dfy`): the page's pipeline end to end and the facts
  about the concrete table.
- `Wrappers` (`wrappers.dfy`): `Option`.

The chosen drop-down values are plain string parameters. A missing pandas
value (the NaN mean of an empty selection) is `None`; an infinite or NaN
quotient of a division by zero is `Percent.NotFinite`.

The page's table is fixed and its only filters are the two drop-downs.

## Model

| member | source | states |
|---|---|---|
| `Records.YieldIncrease` | avdp_dashboard.py:26 | The increase is finite exactly when the yield before is non-zero; then yield after = before + before × increase / 100, and for a positive yield before the increase is positive exactly when the yield grew. |
| `Records.TableColumns` | avdp_dashboard.py:11-23 | The table has six records whose Farmers Trained, Women (%) and Youth (%) cells are those of the table, in order. |
| `Records.TableYieldsGrow` | avdp_dashboard.py:21-22 | Every record of the table has 0 < Yield Before < Yield After. |
| `Records.TableYieldIncreasesPositive` | avdp_dashboard.py:21-26 | Every record's yield increase is finite and positive. |
| `Frame.FromRecords` | avdp_dashboard.py:25 | Building the frame keeps every record, in order, with no derived cell yet. |
| `Frame.WithYieldIncrease` | avdp_dashboard.py:26 | Adding the column keeps the number, order and records of the rows and gives each row its own yield increase. |
| `Frame.ColumnValues` | avdp_dashboard.py:29-30 | Selecting a column gives one cell per row, in row order. |
| `Frame.KeepWhere` | avdp_dashboard.py:34 | A boolean mask on one column keeps a row exactly when the row is in the frame and its cell equals the value; the kept rows are a subsequence of the frame (order kept, nothing added), never longer. |
| `Frame.DataFrame.constructor` | avdp_dashboard.py:25 | A new frame holds exactly the given rows. |
| `Frame.DataFrame.AddYieldIncreaseColumn` | avdp_dashboard.py:26 | The frame's rows are replaced in place by the same rows carrying their yield increase. |
| `Frame.DataFrame.Copy` | avdp_dashboard.py:32 | The copy is a new frame with the same rows. |
| `Frame.DataFrame.Where` | avdp_dashboard.py:34 | Masking yields a new frame holding the rows whose cell equals the value, in order. |
| `Options.Unique` | avdp_dashboard.py:29-30 | The result has no repeats, contains exactly the values of the column, and is no longer than it. |
| `Options.UniqueInFirstAppearanceOrder` | avdp_dashboard.py:29-30 | Distinct values are listed in the order of their first appearance in the column. |
| `Options.UniqueSnoc` | avdp_dashboard.py:29-30 | `Unique`'s defining step, restated for a column extended by one value: a value already seen leaves the distinct values unchanged, a new one goes last. |
| `Options.UniqueOfDistinct` | avdp_dashboard.py:29 | A column without repeats is its own list of distinct values. |
| `Options.UniqueIgnoresRepeats` | avdp_dashboard.py:30 | Values appended after their first appearance add nothing to the distinct values. |
| `Options.OptionList` | avdp_dashboard.py:29-30 | An option list starts with "All" and then holds every value of the column exactly once and nothing else. |
| `Filters.Selected` | avdp_dashboard.py:32-36 | Reference one-pass wildcard filter: every kept row passes both filters, and the result is never longer than the frame. |
| `Filters.SelectAllIsIdentity` | avdp_dashboard.py:32-36 | With both filters on "All" the filtered rows are the whole frame in the same order. |
| `Filters.SelectedCount` | avdp_dashboard.py:33-36 | Each row occurs in the result as often as in the frame if it passes both filters, and not at all otherwise. |
| `Filters.SelectedMembership` | avdp_dashboard.py:33-36 | A row is kept if and only if it is in the frame, has the chosen region (unless "All") and has the chosen value chain (unless "All"). |
| `Filters.SelectedIsSubsequence` | avdp_dashboard.py:32-36 | The filtered rows are a subsequence of the frame: nothing added, altered or reordered, and never more rows. |
| `Filters.RegionStep` | avdp_dashboard.py:33-34 | Masking on Region equals the wildcard filter with the value chain on "All". |
| `Filters.ValueChainStep` | avdp_dashboard.py:35-36 | Masking the region-filtered rows on Value Chain equals the wildcard filter on both columns. |
| `Filters.ApplyFilters` | avdp_dashboard.py:32-36 | The page's copy-then-conditionally-mask steps give a new frame equal to the one-pass wildcard filter, and leave the input frame unchanged. |
| `Kpi.TotalFarmersTrained` | avdp_dashboard.py:40 | The total of no rows is 0; with non-negative counts the total is non-negative. |
| `Kpi.TotalOfSubsequence` | avdp_dashboard.py:40 | Deleting rows with non-negative counts never raises the total, nor makes it negative. |
| `Kpi.WomenPctSum` | avdp_dashboard.py:42 | For percentages in [0, 100] the column sum lies between 0 and 100 times the row count. |
| `Kpi.MeanWomenPct` | avdp_dashboard.py:42 | The mean is missing exactly for no rows; otherwise mean × row count equals the column sum, and it lies in [0, 100] when every value does. |
| `Dashboard.PageRecords` | avdp_dashboard.py:25-26 | The page's frame has one row per table record, holding that record, in table order. |
| `Dashboard.RegionColumnOfTable` | avdp_dashboard.py:12 | The Region column reads Bo, Kenema, Kono, Kailahun, Tonkolili, Port Loko. |
| `Dashboard.ValueChainColumnOfTable` | avdp_dashboard.py:13 | The Value Chain column reads Rice, Cocoa, Oil Palm, Vegetables, then Rice and Vegetables again. |
| `Dashboard.RegionOptionsOfTable` | avdp_dashboard.py:29 | The region options are All, Bo, Kenema, Kono, Kailahun, Tonkolili, Port Loko. |
| `Dashboard.ValueChainOptionsOfTable` | avdp_dashboard.py:30 | The value-chain options are All, Rice, Cocoa, Oil Palm, Vegetables. |
| `Dashboard.TableTotal` | avdp_dashboard.py:18 | The unfiltered farmers total is 8500. |
| `Dashboard.FilteredBounds` | avdp_dashboard.py:32-40 | For any two filter values at most six rows are kept and the farmers total lies in [0, 8500], reaching 8500 with both filters on "All". |
| `Dashboard.NoMatchTotalZero` | avdp_dashboard.py:32-40 | When no row passes the filters nothing is kept and the farmers total is 0. |
| `Dashboard.PageYieldIncreasesPositive` | avdp_dashboard.py:21-26 | Every row of the page's frame has a finite, positive yield increase. |
| `Dashboard.Page` | avdp_dashboard.py:25-42 | One evaluation of the page gives the two option lists above, a new frame holding the wildcard-filtered rows, a farmers total in [0, 8500] over them and their women-participation mean. |

## Left out

- Page setup, titles, markdown, columns, `st.metric` tiles and `st.dataframe` (lines 6-8, 39-42, 45-59): presentation only.
- The `st.selectbox` widgets (lines 29-30): the chosen values are parameters of `Filters.ApplyFilters` and `Dashboard.Page`; any string is accepted, as the filter code itself accepts any value.
- The Plotly bar, sunburst and scatter charts (lines 46-55): calls into a rendering library.
- The average yield increase (line 41): its mean over floating-point values, where pandas skips NaN and propagates infinity, is not modelled.
- Number formatting (`:,` and `:.1f`, lines 40-42): presentation only.
- Floating point: yields and percentages are exact reals, so the binary rounding of values such as 1.2 and of the quotient on line 26 is not modelled.
- Kpi.TotalFarmersTrained: pandas sums in 64-bit integers; the model uses unbounded integers, which agree for this table (total 8500).
- The frame's construction from a dictionary of equal-length columns (lines 11-25) is modelled directly as a sequence of records, so the column-to-row transposition and pandas' error on unequal column lengths are not modelled.
- The row index labels a pandas frame keeps through masking are not modelled; the order of the kept rows is.
