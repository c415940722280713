# fra_amtrak detraining analysis, modelled in Dafny

`fra_amtrak` studies Amtrak station data: it filters station tables, puts a
train's stations into route order, and classifies jurisdictions by country,
region and division. It aggregates detraining counts and minutes late per
group, bins values for histograms, and reshapes data for bar charts. This
project models the computational core of that package and proves what the
code promises about it:

- `common.dfy` (`Common`): the Python value semantics the core relies on.
  - Truthiness, `isinstance(x, int)` including `bool`, and `==` on scalars.
  - `str.isspace()`, ASCII lower-casing, and `str(n)` with its parse-back.
  - The exceptions the core raises.
- `grouping.dfy` (`Grouping`): what `groupby` does to a key column.
  - Keys sorted as Python orders `str`, one group per distinct key.
  - Group sizes, and the values of each group in row order.
- `amtk_network.dfy` (`AmtkNetwork`), from `amtk_network.py`:
  - `filter_stations`, a boolean mask narrowed criterion by criterion.
  - `create_route` and `add_stations_to_route`, sorts of a station table by rank or by coordinates. Only `create_route` with a station order sorts the caller's table in place; its coordinate branch and `add_stations_to_route` sort a new frame.
  - `get_country` and `get_region_division`.
- `amtk_frame.py` is modelled in `amtk_frame.dfy` (`AmtkFrame`):
  - `aggregate_data`: the box-plot rows per group (fences, in-fence extremes and outliers).
  - `create_bins` and `bin_data`: histogram binning.
  - `normalize_string` and `normalize_series_strings`.
- `amtk_detrain.dfy` (`AmtkDetrain`), from `amtk_detrain.py`:
  - `assign_color` and `flatten_columns`.
  - Train arrivals and mean minutes late per group.
  - `get_sum_stats_by_group`. Its frame is a class whose column list and column map are edited in place by `insert`, `pop` and `.loc` assignment, the way the source edits the pandas frame.
- `chart_bar.dfy` (`ChartBar`), from `chart_bar.py`: `create_detrain_chart_frame`. It builds a working copy, then melts it into On Time and Late rows.

Source paths below are relative to the repository root.

## Model

| member | source | states |
|---|---|---|
| Common.IntToStringInjective | fra_amtrak/chart_bar.py:123-125 | two ints with the same `str()` text are equal (the text parses back to the int) |
| Common.LastDigitParity | fra_amtrak/amtk_detrain.py:13 | the last digit of `str(n)` has the parity of n, for negative n too |
| Grouping.GroupKeys | fra_amtrak/amtk_detrain.py:380 | the groups of a key column are strictly ascending (so duplicate-free) and are exactly the keys that occur |
| Grouping.Count | fra_amtrak/amtk_detrain.py:380 | a group's size is positive exactly when its key occurs, and at most the row count |
| Grouping.GroupSizesSumToRows | fra_amtrak/amtk_detrain.py:380 | the sizes of all groups add up to the number of rows |
| Grouping.GroupValuesCount | fra_amtrak/amtk_detrain.py:155 | a group holds as many values as there are rows with its key |
| Grouping.GroupValuesMembership | fra_amtrak/amtk_detrain.py:155 | v is a value of group g exactly when some row has key g and value v |
| AmtkNetwork.FilterStations | fra_amtrak/amtk_network.py:179-201 | Errors come first, in source order: a truthy column that is not in the table is a ValueError, a given column with value None is a ValueError, a truthy year that is not an int is a TypeError, and a quarter outside 1-4 is a ValueError. Otherwise the result is exactly the rows meeting every active criterion |
| AmtkNetwork.NarrowByColumn | fra_amtrak/amtk_network.py:186 | after `mask &= stations[column] == value` the mask selects exactly the rows meeting the earlier criteria and the column test |
| AmtkNetwork.NarrowByYear | fra_amtrak/amtk_network.py:191 | after the year step the mask adds the test Fiscal Year == year |
| AmtkNetwork.NarrowByQuarters | fra_amtrak/amtk_network.py:196 | after the quarters step the mask adds the test Fiscal Quarter in quarters |
| AmtkNetwork.SelectRows | fra_amtrak/amtk_network.py:198-201 | the rows the mask keeps are the filtered rows, and when every row passes they are the input rows themselves |
| AmtkNetwork.AllTrue | fra_amtrak/amtk_network.py:198 | `mask.all()` holds exactly when every entry is true |
| AmtkNetwork.FilterMembership | fra_amtrak/amtk_network.py:186-201 | a row is in the result exactly when it is an input row meeting every criterion |
| AmtkNetwork.FilterConcat | fra_amtrak/amtk_network.py:201 | filtering distributes over concatenation, so kept rows stay in their original relative order |
| AmtkNetwork.FilterAllPass | fra_amtrak/amtk_network.py:198-199 | when every row passes, the filter returns the table unchanged |
| AmtkNetwork.FalsyValuesAccepted | fra_amtrak/amtk_network.py:165-166 | a falsy value other than None (0, 0.0, False, "") is accepted and becomes the column test |
| AmtkNetwork.QuartersIgnoredWithoutYear | fra_amtrak/amtk_network.py:188-196 | without a truthy year the quarters are neither validated nor applied |
| AmtkNetwork.ParseDirection | fra_amtrak/amtk_network.py:139-151 | each direction is chosen exactly by its short or long name, case-insensitively; anything else gives no direction |
| AmtkNetwork.PrecedesTotal | fra_amtrak/amtk_network.py:141-147 | any two stations are comparable under each route order (rank with missing ranks last, or the direction's coordinate pairs) |
| AmtkNetwork.PrecedesTransitive | fra_amtrak/amtk_network.py:141-147 | each route order is transitive, so a sorted route is well defined |
| AmtkNetwork.SortRows | fra_amtrak/amtk_network.py:134-136 | the in-place sort leaves the rows ordered and a permutation of the rows before |
| AmtkNetwork.CreateRoute | fra_amtrak/amtk_network.py:133-153 | A non-empty station order sorts the caller's table in place by rank and returns it. Otherwise the table is untouched: an unknown direction is a ValueError with the source's message, and a known one returns a permutation sorted by that direction's coordinate order |
| AmtkNetwork.AddStationsToRoute | fra_amtrak/amtk_network.py:19-25 | An empty train is an IndexError. Otherwise every added station gets the train number of the train's first row, and the result holds the train's rows and the stations (as a multiset), sorted by rank |
| AmtkNetwork.GetCountry | fra_amtrak/amtk_network.py:218-223 | "United States" when the jurisdiction is in the US list (checked first), "Canada" when it is only in the Canadian list, missing when it is in neither; a list the dictionary lacks when it is consulted raises KeyError, so a jurisdiction outside the US list with no Canadian list is KeyError("Canada") |
| AmtkNetwork.GetRegionDivision | fra_amtrak/amtk_network.py:239-243 | missing exactly when no division lists the jurisdiction; otherwise the region and division of its first listing in iteration order |
| AmtkFrame.OutliersMembership | fra_amtrak/amtk_frame.py:47-50 | a value is an outlier exactly when it is a group value strictly outside the fences |
| AmtkFrame.OutliersPartition | fra_amtrak/amtk_frame.py:35-50 | every group value is either an outlier or inside the fences, never both, and the two counts add up to the group size |
| AmtkFrame.NoOutliers | fra_amtrak/amtk_frame.py:53-69 | a group's outlier list is empty exactly when all its values lie inside the fences |
| AmtkFrame.FencesEncloseQuartiles | fra_amtrak/amtk_frame.py:27-29 | with k >= 0 the fences `min_` and `max_` enclose the quartiles |
| AmtkFrame.FencesBracket | fra_amtrak/amtk_frame.py:27-51 | in an aggregated row, min_ <= 25% <= 75% <= max_, the in-fence extremes lie within the fences and every outlier lies outside them |
| AmtkFrame.ScanGroup | fra_amtrak/amtk_frame.py:32-51 | one pass gives the group's count, its least value at or above min_, its greatest value at or below max_, and its outliers in row order |
| AmtkFrame.GroupStats | fra_amtrak/amtk_frame.py:27-51 | the aggregated row of a group: count, quartiles, iqr, fences, in-fence extremes and outliers |
| AmtkFrame.AggregateData | fra_amtrak/amtk_frame.py:8-72 | one aggregated row per group, in ascending key order, each the box-plot statistics of its group |
| AmtkFrame.AggregateCountsCoverRows | fra_amtrak/amtk_frame.py:21-24 | the counts of the aggregated rows add up to the number of input rows |
| AmtkFrame.MinOf | fra_amtrak/amtk_frame.py:130 | `min()` is a value of the column and at most every value |
| AmtkFrame.MaxOf | fra_amtrak/amtk_frame.py:131 | `max()` is a value of the column and at least every value |
| AmtkFrame.FloorDiv | fra_amtrak/amtk_frame.py:130 | `floor(a / w)` is the q with q*w <= a < q*w + w |
| AmtkFrame.CeilDiv | fra_amtrak/amtk_frame.py:131 | `ceil(a / w)` is the q with q*w - w < a <= q*w |
| AmtkFrame.Edges | fra_amtrak/amtk_frame.py:134 | `np.arange` with a positive step gives n strictly increasing multiples of the width |
| AmtkFrame.BinEdgesAsWritten | fra_amtrak/amtk_frame.py:130-134 | the edges as written run from floor(min/w)*w to ceil(max/w)*w, at least one edge |
| AmtkFrame.SingleEdgeAsWritten | fra_amtrak/amtk_frame.py:130-140 | as written, values that are all the same multiple of the width get one edge and bin -1 |
| AmtkFrame.SingleEdgeExample | fra_amtrak/amtk_frame.py:130-140 | the values [10] with width 5 get the edges [10] and bin -1 |
| AmtkFrame.BinEdges | fra_amtrak/amtk_frame.py:130-134 | the intended edges: at least two, strictly increasing and one width apart, starting at floor(min/w)*w and covering [min, max] |
| AmtkFrame.BinEdgesAgree | fra_amtrak/amtk_frame.py:130-134 | except in the single-edge case the intended edges are the edges as written |
| AmtkFrame.BinInRange | fra_amtrak/amtk_frame.py:137-140 | every value between min and max gets a bin in [0, len(edges) - 2] whose edges enclose it, the last bin being closed on the right |
| AmtkFrame.AllBinsInRange | fra_amtrak/amtk_frame.py:137-140 | every value of the column gets a bin in [0, len(edges) - 2] |
| AmtkFrame.Digitize | fra_amtrak/amtk_frame.py:137 | each row's bin becomes `digitize(value, edges) - 1` and nothing else changes |
| AmtkFrame.PatchLastEdge | fra_amtrak/amtk_frame.py:140 | rows whose value equals the last edge move to bin len(edges) - 2 and the other rows are unchanged |
| AmtkFrame.CreateBins | fra_amtrak/amtk_frame.py:118-143 | create_bins as written. An empty frame is a ValueError. Otherwise the edges as written and the bin count len(edges) - 1 are returned, and each row's bin is the bin of its value under those edges. With a single edge the count is 0 and every row is in bin -1; with two or more the edges are the intended ones and every bin is in range |
| AmtkFrame.CreateBinsCorrected | fra_amtrak/amtk_frame.py:118-143 | create_bins with the intended edges: an empty frame is a ValueError; otherwise each row's bin is the bin of its value, each in range, and the edges and the bin count len(edges) - 1 are returned |
| AmtkFrame.AssignBins | fra_amtrak/amtk_frame.py:137-140 | each row's bin becomes the bin of its value under the given edges, the last edge closing the last bin, and nothing else changes |
| AmtkFrame.SingleEdgeBins | fra_amtrak/amtk_frame.py:130-140 | when the edges as written are a single edge, every value of the column is in bin -1 |
| AmtkFrame.ManyEdgeBins | fra_amtrak/amtk_frame.py:130-140 | when the edges as written are two or more, they are the intended edges and every value gets a bin in [0, len(edges) - 2] |
| AmtkFrame.PyIndex | fra_amtrak/amtk_frame.py:91-92 | `bins[x]` succeeds exactly for -len <= x < len, negative indices counting from the end |
| AmtkFrame.OccupiedBins | fra_amtrak/amtk_frame.py:88 | the groups of the bin column are strictly ascending and are exactly the bins that occur |
| AmtkFrame.BinData | fra_amtrak/amtk_frame.py:88-95 | An IndexError exactly when some occupied bin or its successor cannot be indexed in the edges. Otherwise one row per occupied bin, ascending, with the bin's row count, start, end and centre |
| AmtkFrame.BinnedDataIndexable | fra_amtrak/amtk_frame.py:91-92 | the bins CreateBinsCorrected assigns (the intended edges) can all be looked up in its edges, and each is one width wide. By BinEdgesAgree these are also the as-written bins whenever the as-written edges number two or more; in the single-edge case every bin is -1 and spans zero width |
| AmtkFrame.BinCountsCoverRows | fra_amtrak/amtk_frame.py:88 | bin_data's counts add up to the number of rows binned |
| AmtkFrame.Strip | fra_amtrak/amtk_frame.py:260 | `strip()` removes exactly the leading and trailing whitespace: the rest of the string is kept and no longer starts or ends with whitespace |
| AmtkFrame.StripIdempotent | fra_amtrak/amtk_frame.py:260 | stripping twice is stripping once |
| AmtkFrame.NormalizeString | fra_amtrak/amtk_frame.py:260 | any non-string value is returned unchanged. A string gives a string: the substituted text minus its leading and trailing whitespace (only whitespace is removed on either side), which neither starts nor ends with whitespace |
| AmtkFrame.NormalizedIsStripped | fra_amtrak/amtk_frame.py:260 | normalising a normalised string again changes nothing when the substitution leaves it alone |
| AmtkFrame.NormalizeSeriesStrings | fra_amtrak/amtk_frame.py:277 | every element is normalised, in order, and the length is kept |
| AmtkDetrain.AssignColor | fra_amtrak/amtk_detrain.py:13 | An even last digit picks colors[0] and an odd one picks colors[1]. An empty string or a missing colour is an IndexError; a last character that is not a digit is int()'s ValueError |
| AmtkDetrain.SameParitySameColor | fra_amtrak/amtk_detrain.py:13 | with two distinct colours, two quarters get the same colour exactly when their last digits have the same parity |
| AmtkDetrain.FlattenColumnAsWritten | fra_amtrak/amtk_detrain.py:83 | the comprehension as written fails exactly on plain names shorter than two characters (IndexError) and otherwise agrees with the intended flattening |
| AmtkDetrain.ShortNameRaises | fra_amtrak/amtk_detrain.py:82-85 | the plain name "x" makes the as-written flattening raise, where the intended one keeps "x" |
| AmtkDetrain.FlattenColumn | fra_amtrak/amtk_detrain.py:83 | a pair with an empty second level gives its first level, other pairs are joined by one space, plain names are kept |
| AmtkDetrain.FlattenColumns | fra_amtrak/amtk_detrain.py:82-85 | flatten_columns as written: an IndexError exactly when some column is a plain name shorter than two characters; otherwise the intended flat names |
| AmtkDetrain.FlattenColumnsCorrected | fra_amtrak/amtk_detrain.py:82-85 | the intended flattening: one flat name per column, in column order |
| AmtkDetrain.FlattenedPairKeepsLevels | fra_amtrak/amtk_detrain.py:83 | a flattened pair starts with its first level and continues with a space and the second level exactly when that is non-empty |
| AmtkDetrain.TallyStep | fra_amtrak/amtk_detrain.py:380-383 | counting one more key keeps a per-group tally equal to the group sizes of the keys seen |
| AmtkDetrain.TrainArrivalsOf | fra_amtrak/amtk_detrain.py:380-383 | one row per group, in group order, each with a positive arrival count |
| AmtkDetrain.GetTrainArrivalsByGroup | fra_amtrak/amtk_detrain.py:380-383 | the one-pass tally gives exactly each group's row count, in group order |
| AmtkDetrain.TrainArrivalsCoverRows | fra_amtrak/amtk_detrain.py:380 | the train arrivals of all groups add up to the number of input rows |
| AmtkDetrain.MeanBounds | fra_amtrak/amtk_detrain.py:156 | a mean lies between any lower and upper bound of its values |
| AmtkDetrain.GetMeanMinLateByGroups | fra_amtrak/amtk_detrain.py:154-164 | the columns are the group column and "Late Detraining Customers Avg Min Late mean"; there is one row per group in group order, each holding the mean of that group's (non-empty) values |
| AmtkDetrain.GroupMean | fra_amtrak/amtk_detrain.py:155-156 | an occurring group has values, and its row holds their mean |
| AmtkDetrain.MeanWithinGroup | fra_amtrak/amtk_detrain.py:154-158 | each group's mean lies between the least and greatest minutes late of that group's rows |
| AmtkDetrain.Header | fra_amtrak/amtk_detrain.py:309-350 | every added column's header is one of the six derived names |
| AmtkDetrain.HeaderInjective | fra_amtrak/amtk_detrain.py:304-350 | different columns have different headers when no aggregated column carries a derived name |
| AmtkDetrain.Difference | fra_amtrak/amtk_detrain.py:325-327 | the on-time column is the row-wise difference total - late |
| AmtkDetrain.Ratio | fra_amtrak/amtk_detrain.py:119 | the late ratio is the row-wise quotient late / total |
| AmtkDetrain.Scaled | fra_amtrak/amtk_detrain.py:331 | a ratio column divides each row by the given total |
| AmtkDetrain.OnTimePlusLateIsTotal | fra_amtrak/amtk_detrain.py:325-327 | on-time plus late gives back the total in every numeric row |
| AmtkDetrain.LateRatioTimesTotal | fra_amtrak/amtk_detrain.py:119 | the late ratio times the total gives back the late count, and a zero total gives a non-finite ratio |
| AmtkDetrain.Position | fra_amtrak/amtk_detrain.py:310 | `get_loc`: the first index of the label, and the length exactly when it is absent |
| AmtkDetrain.InsertAt | fra_amtrak/amtk_detrain.py:309 | inserting places the label at the index and adds exactly it |
| AmtkDetrain.DeleteAt | fra_amtrak/amtk_detrain.py:312 | deleting from a duplicate-free list removes exactly that label |
| AmtkDetrain.ColumnMap | fra_amtrak/amtk_detrain.py:304 | the frame's map holds exactly the given labels, each with its column |
| AmtkDetrain.Frame.constructor | fra_amtrak/amtk_detrain.py:301-304 | the frame holds the given labels and columns |
| AmtkDetrain.Frame.GetLoc | fra_amtrak/amtk_detrain.py:310 | `columns.get_loc`: the index of a present label, a KeyError naming the header of an absent one |
| AmtkDetrain.Frame.Pop | fra_amtrak/amtk_detrain.py:312 | `pop` returns the column and removes exactly its label and values |
| AmtkDetrain.Frame.Insert | fra_amtrak/amtk_detrain.py:309-313 | `insert` adds the column at the index and keeps every other column |
| AmtkDetrain.Frame.AppendColumn | fra_amtrak/amtk_detrain.py:316-318 | assigning a new label through `.loc` appends it after the last column |
| AmtkDetrain.Frame.MoveBefore | fra_amtrak/amtk_detrain.py:309-313 | `insert(get_loc(anchor), col, pop(col))`: col is removed, then re-inserted at the anchor's index taken before the pop, and all values are kept |
| AmtkDetrain.SumStatsColumns | fra_amtrak/amtk_detrain.py:307-350 | the final column order has four more labels than the aggregated frame, plus one per truthy total, and every label in it is either aggregated or one of the added columns |
| AmtkDetrain.SumStatsColumnsLayout | fra_amtrak/amtk_detrain.py:309-350 | The aggregated columns keep their order. Train Arrivals and the present ratio columns sit just before the total, in that order. The late ratio, the mean and the on-time count come last |
| AmtkDetrain.SumStatsColumnsDistinct | fra_amtrak/amtk_detrain.py:307-350 | the result holds no column label twice |
| AmtkDetrain.DerivedColumnsPrecedeTotal | fra_amtrak/amtk_detrain.py:309-313 | the total is immediately preceded by Train Arrivals, then Train Arrival Ratio and Detraining Ratio when present |
| AmtkDetrain.SumStatsHeadersDistinct | fra_amtrak/amtk_detrain.py:304-350 | the result's headers are pairwise distinct |
| AmtkDetrain.AddBeforeTotal | fra_amtrak/amtk_detrain.py:335-339 | a column assigned and then moved lands immediately before the total, with its values |
| AmtkDetrain.AppendLateColumns | fra_amtrak/amtk_detrain.py:316-327 | the late ratio, the mean minutes late and the on-time count are appended, in that order, with their values |
| AmtkDetrain.AddArrivalRatio | fra_amtrak/amtk_detrain.py:330-339 | a truthy total number of arrivals adds Train Arrival Ratio before the total; otherwise nothing changes |
| AmtkDetrain.AddDetrainRatio | fra_amtrak/amtk_detrain.py:342-350 | a truthy total number of detraining customers adds Detraining Ratio before the total; otherwise nothing changes |
| AmtkDetrain.SumStatsFrame | fra_amtrak/amtk_detrain.py:307-350 | the steps on the aggregated frame yield the final column order and the final columns |
| AmtkDetrain.SumStatsDataKeepsColumns | fra_amtrak/amtk_detrain.py:307-322 | the aggregated columns come through unchanged, and Train Arrivals and the mean hold the merged values |
| AmtkDetrain.SumStatsDataLateColumns | fra_amtrak/amtk_detrain.py:316-327 | row by row, the on-time count is total - late and the late ratio is late / total |
| AmtkDetrain.SumStatsDataRatios | fra_amtrak/amtk_detrain.py:330-350 | each ratio column is present exactly when its total is truthy, and divides that row's arrivals or total by it |
| AmtkDetrain.GetSumStatsByGroup | fra_amtrak/amtk_detrain.py:280-352 | flatten_columns' IndexError (a plain column name shorter than two characters) comes first. KeyErrors come next, in source order: the group column, the total, then the late count. Next a truthy total that is not a number is a TypeError. Otherwise a fresh valid frame with one row per group, the final column order and the final columns |
| ChartBar.FiscalPeriod | fra_amtrak/chart_bar.py:123-125 | the label is the year's text, a "Q" right after it, then the quarter's text |
| ChartBar.FiscalPeriodInjective | fra_amtrak/chart_bar.py:123-125 | different (year, quarter) pairs get different labels |
| ChartBar.PeriodColorFollowsQuarter | fra_amtrak/amtk_detrain.py:13 | assign_color on a period label picks the first colour for an even quarter and the second for an odd one |
| ChartBar.StatusName | fra_amtrak/chart_bar.py:146-151 | the Arrival Status values are the melted column names "On Time" and "Late" |
| ChartBar.PeriodRows | fra_amtrak/chart_bar.py:120-143 | builds the working copy from the records (the frame is not changed): each row has its period label, its late count, and an on-time count that with the late count gives the total |
| ChartBar.Melt | fra_amtrak/chart_bar.py:146-151 | twice as many rows: first the On Time rows in input order, then the Late rows in input order |
| ChartBar.CreateDetrainChartFrame | fra_amtrak/chart_bar.py:108-153 | 2n rows for n input rows. Row i is period i's On Time row with total - late passengers, and row n + i is its Late row with the late count, so the two add up to the total. The input frame is not modified |

## Left out

- I/O, plotting and chart configuration: every Altair builder in `chart_bar.py` and the other chart modules only build declarative objects for a plotting library.
- Unimplemented stubs. These have no body to model:
  - `compute_sum_stats`, `compute_sum_stats_by_group`, `format_year_quarter`, `get_mean_min_late`, `get_train_arrival_ratio`, `predict_avg_min_late_by_distance`.
  - The `by_*` wrappers and `get_nlargest`.
  - `drop_dups_and_squeeze`.
  - Their callers (`get_sum_stats`, `get_route_sum_stats`, `get_qtr_avg_min_late`, `get_n_busiest_stations`) are left out too.
- Floating point: ratios, means and fences are exact `real`s. `.round(precision)` is not modelled. A division by zero yields a `NonFinite` cell, not a particular NaN or infinity.
- NaN and missing cells: pandas skips NaN in `mean`, `min`, `max` and `count`. The model's columns hold no NaN, except that a station code missing from a station order ranks last.
- Group keys are a single string column. Grouping by a function, dict or list of keys (composite keys) is not modelled.
- AmtkNetwork.SortRows: tie order is not modelled. The single-key rank sort of `create_route` uses pandas' default, unstable sort; the two-key coordinate sort is stable, but the model promises only "ordered and a permutation" for both.
- AmtkNetwork.FilterStations: table cells are Python scalars compared by `==`. NaN cells and column dtypes are not modelled.
- Station tables (AmtkNetwork.FilterStations, AmtkNetwork.CreateRoute, AmtkNetwork.AddStationsToRoute) always have the named columns and a default 0..n-1 row index. Two kinds of error are therefore not modelled:
  - the KeyError for a missing column: "Fiscal Year" and "Fiscal Quarter" in `filter_stations` (amtk_network.py:191, :196), the rank, coordinate and "Train Number" columns in `create_route` (:135, :153) and `add_stations_to_route` (:19, :22);
  - for `filter_stations`, the row-label alignment of the mask. The mask is built on a fresh 0..n-1 index (:179) and combined by label (:184, :191, :196). On a table with another index, for example a slice of a larger frame, `stations[mask]` (:201) would raise pandas' IndexingError once any criterion is active. The model's mask is positional.
- AmtkFrame.AggregateData: Quartiles and `k`:
  - `describe`'s interpolated quartiles are inputs, not computed.
  - It requires `k >= 0` and quartiles that lie between the group's least and greatest values. The source silently misaligns its positional `lower`/`upper` assignment when a group has no in-fence value, and these two requirements exclude that case.
  - The `mean`, `std`, `min`, `50%` and `max` columns of `describe` are not modelled.
  - The "Color" merge is not modelled: it copies a column from the input, and it duplicates rows when a group has several colours.
- AmtkFrame.CreateBins: values and bin width are integers and the width is positive. Float columns and non-positive widths are not modelled.
- AmtkFrame.NormalizeString: the regular-expression substitution `re.sub(pattern, replace, ·)` is a function parameter, because regular expressions are not modelled.
- AmtkDetrain.AssignColor: only ASCII digits count as digits. `int()` also accepts other Unicode decimal digits. The ValueError's text always wraps the character in single quotes, whereas Python formats it with `repr()`, which differs for `'`, `\` and non-printable characters.
- AmtkDetrain.FlattenColumns: only one- and two-level column labels are modelled.
- AmtkDetrain.GetMeanMinLateByGroups: the means are not rounded to `precision` places.
- AmtkDetrain.GetSumStatsByGroup has seven limits:
  - The aggregated frame, the result of the stub `compute_sum_stats_by_group`, is an input given as labels and columns with one row per group in group order.
  - Both merges are therefore modelled positionally.
  - Derived column names are required to be absent from the aggregated frame, so pandas' `_x`/`_y` suffixing is not modelled.
  - The TypeError's message is abbreviated.
  - The input frame is given as (group, minutes late) observations, so two KeyErrors are not modelled: the group column missing from the input frame (amtk_detrain.py:380, reached from line 307), and "Late Detraining Customers Avg Min Late" missing (amtk_detrain.py:155, reached from line 321).
  - Non-numeric cells in the arithmetic give `NonFinite`.
  - The flattened column names are required to be distinct, because the frame's column map needs unique labels. Flattened names can collide, as ("a b", "") and ("a", "b") do. pandas accepts such frames: a duplicate label other than the total passes through unharmed, a duplicate total makes `get_loc` return a mask, and a duplicate group column makes `merge` raise. None of this is modelled.
- ChartBar.CreateDetrainChartFrame has three limits:
  - The `columns` dictionary is not modelled: the four columns of interest are the record's fields, so the KeyError for a missing column is not modelled.
  - Years and quarters are ints. `astype(str)` on a float column would give "2024.0".
  - The melted frame's index is not modelled.

## Findings

| source | as written | input that shows it | evidently intended | confidence | as-written member | corrected member |
|---|---|---|---|---|---|---|
| fra_amtrak/amtk_frame.py:130-140 | the edges run from floor(min/w)*w to ceil(max/w)*w, so values that are all one multiple of the width get a single edge | a column whose values are all 10, with bin_width 5: edges [10], zero bins, and every row in bin -1 | at least one bin, [10, 15], holding every row | not executed | AmtkFrame.CreateBins | AmtkFrame.CreateBinsCorrected |
| fra_amtrak/amtk_detrain.py:83 | `col[1]` is evaluated before the tuple test, so a plain column name is indexed | a frame with a plain column named "x": IndexError | plain names are kept unchanged, as the docstring says | not executed | AmtkDetrain.FlattenColumns | AmtkDetrain.FlattenColumnsCorrected |
