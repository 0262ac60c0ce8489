# Dashboard date-range aggregation, in Dafny

This project models the computing core of a Streamlit dashboard (`dashboard.py`). The dashboard reports three MySQL tables:

- AI responses: a job id, a token count and a date.
- Model creations: a model id, a date and a standardisation flag.
- OneDrive photo uploads: a listing number `sgno`, an image count, a web-open flag and a date.

The model covers how the dashboard turns those tables into numbers:

- **Load time.** The AI table is grouped by day into a token sum, a count of tokens and a cost of $0.25 per call. The model-creation table is sorted newest first.
- **Period summaries.** The daily, weekly and monthly summaries (`calculate_period_stats`) each filter the three tables to a trailing window of 1, 7 or 30 days ending today, then count and sum the rows.
- **Custom-range sections.** There are three, one per table. Each cuts its table to the user's inclusive `[start, end]` range, groups it by day, shows it newest first and totals its columns.

Each record is a datatype. A table is a sequence of records, and a nullable database column is an `Option<int>`. The pandas reductions keep their null semantics: `count` counts present values, and `sum` skips missing ones. Dates are integers (day numbers). Every pandas operation is a function over sequences:

- the boolean-mask filter is `Aggregation.FilterRange`;
- `groupby('date')` yields one row per distinct date, ascending;
- `sort_values(..., ascending=False)` on the grouped tables is a reversal of that ascending table.

The lemmas state what the page relies on:

- the filter is inclusive at both ends, keeps row order and is idempotent;
- the grouped tables have one row per distinct date and re-sum to the ungrouped totals;
- the displayed tables are strictly newest first;
- an empty range shows zeros;
- `Non-Standardized` is `Total Count - Standardized` and, when no model id is missing, never negative;
- a trailing-window summary and the custom-range section for the same window report the same sums.

Modules:

- `Wrappers`: `Option` and `Result`.
- `Aggregation`: the generic range filter, column sums, the group-by key list and per-day sums, reversal and the descending sort.
- `Records`: the three row types and their column accessors.
- `PeriodStats`: the trailing window and `calculate_period_stats`.
- `AiReport`, `ModelReport`, `PhotoReport`: the three custom-range sections.
- `Dashboard`: the page as a whole, and the agreement between summaries and sections.

Three places where the code does something other than what its names or its comments suggest. The model follows the code:

- **AI `count` column.** In the grouped AI table, `count` is pandas' `count` of the `token` column. It counts non-null tokens, not rows. `AiReport.GroupAiByDate` says so. The period summary, in contrast, counts rows with `len`. The two agree when no token is missing (`Dashboard.WindowAndRangeAgree`).
- **Order of grouping and filtering.** The AI section groups first and filters the grouped table afterwards. The other two sections filter first and then group. `AiReport.AiFilterCommutes` proves that both orders give the same table.
- **Missing flag column.** The guard inside the `Standardized` lambda at dashboard.py:245 suggests that a model-creation table with neither `standard_status` nor `standard` gives `Standardized = 0`. But the aggregation dictionary names the missing column, so `agg` raises `KeyError` before the lambda ever runs, whenever the range holds rows. `ModelReport.ModelCreateSection` returns `Failure(MissingColumn("standard"))` in that case. The exception ends the script, so the photo-upload section after it is not computed either (`Dashboard.BuildPage`, `Dashboard.MissingFlagColumnStopsPage`). An empty range still succeeds with zeros, because the code never reaches `agg`.

## Model

| member | source | states |
|---|---|---|
| Aggregation.FilterRange | dashboard.py:107-109 | the result holds exactly the rows of the input whose date is between start and end, both ends included, and is never longer than the input |
| Aggregation.FilterRangeMultiset | dashboard.py:320 | filtering keeps every in-range row as many times as it occurs and drops every other row |
| Aggregation.FilterRangePermutation | dashboard.py:187 | two tables holding the same rows in any order filter to tables holding the same rows |
| Aggregation.FilterRangeAppend | dashboard.py:107-109 | the filter keeps the original row order: filtering a concatenation is concatenating the filtered parts |
| Aggregation.FilterRangeNested | dashboard.py:186 | filtering twice equals filtering once to the intersection of the two ranges |
| Aggregation.FilterRangeIdempotent | dashboard.py:186 | filtering an already filtered table with the same bounds changes nothing |
| Aggregation.FilterRangeEmpty | dashboard.py:112 | the filtered table is empty exactly when no row's date lies in the range |
| Aggregation.ColumnSumAppend | dashboard.py:203-205 | the sum of a column over two tables put together is the sum of the two sums |
| Aggregation.ColumnSumPermutation | dashboard.py:201-205 | a column sum does not depend on the row order, so the newest-first table has the same totals as the ascending one |
| Aggregation.ColumnSumMonotone | dashboard.py:249 | a column that is never larger than another row by row has a sum no larger than the other's |
| Aggregation.RealColumnSumScaled | dashboard.py:205 | a real column that is a fixed rate times an integer column sums to the rate times that column's sum |
| Aggregation.Reverse | dashboard.py:201 | the result has the input's length and holds its rows in the opposite order |
| Aggregation.ReversePermutes | dashboard.py:201 | reversing keeps every row exactly as often as it occurs |
| Aggregation.ReverseDescends | dashboard.py:250 | reversing a table strictly ascending by date gives a table strictly descending by date |
| Aggregation.ReversedDates | dashboard.py:328 | the newest-first display of a table ascending by date is strictly descending and shows exactly the same dates |
| Aggregation.InsertDate | dashboard.py:50 | inserting a date into a strictly ascending key list keeps it strictly ascending, and its contents gain exactly that date |
| Aggregation.DistinctDates | dashboard.py:50 | the group keys are strictly ascending, every row's date is a key and every key is the date of some row |
| Aggregation.GroupKeys | dashboard.py:323 | a table with one row per group key, in key order, is strictly ascending by date and shows exactly the dates of the input rows |
| Aggregation.DistinctDatesOfFilter | dashboard.py:186 | the group keys of the filtered rows are the group keys of all rows, filtered to the range |
| Aggregation.FilterRangeAscendingBy | dashboard.py:186 | filtering a table strictly ascending by date keeps it strictly ascending |
| Aggregation.DistinctDatesPermutation | dashboard.py:53 | tables holding the same rows in any order have the same group keys |
| Aggregation.SumOnPermutation | dashboard.py:53 | one day's group sum does not depend on the row order |
| Aggregation.SumOnFilter | dashboard.py:186 | for a day inside the range, the day's group sum is the same before and after filtering |
| Aggregation.Resum | dashboard.py:243-246 | summing the per-day sums over all group keys gives the column sum over the ungrouped rows |
| Aggregation.InsertByDateDesc | dashboard.py:53 | placing one row into a newest-first table keeps it newest first and adds no row other than that one |
| Aggregation.SortByDateDesc | dashboard.py:53 | the result is ordered newest first and holds exactly the input rows |
| Aggregation.InsertByDateDescMultiset | dashboard.py:53 | placing one row into a newest-first table adds exactly that row and nothing else |
| Aggregation.ColumnSum | dashboard.py:112 | `Series.sum()` over a column (also at lines 116, 203-205, 261-262 and 329-331); it has no ensures of its own, and `ColumnSumAppend`, `ColumnSumPermutation`, `ColumnSumMonotone` and `ColumnSumOfZeros` state its properties |
| Aggregation.RealColumnSum | dashboard.py:205 | `Series.sum()` over the real `Cost ($)` column; it has no ensures of its own, and `RealColumnSumScaled` states that a flat-rate column sums to the rate times the count |
| Aggregation.SumOn | dashboard.py:244-245 | one group's aggregate: the column summed over the rows of one day (also at lines 50 and 323); it has no ensures of its own, and `SumOnPermutation`, `SumOnFilter` and `Resum` state its properties |
| Aggregation.CountOfPresentColumn | dashboard.py:244 | when every row has the value, `count` of the column equals the number of rows |
| Aggregation.ColumnSumOfZeros | dashboard.py:112 | a column that is 0 on every row sums to 0 |
| Records.Present | dashboard.py:244 | one cell's contribution to pandas `count`: 1 exactly when the cell is present, and always 0 or 1 |
| Records.IsOne | dashboard.py:245 | one cell's contribution to `(x == 1).sum()`: 1 exactly when the cell holds 1, and always 0 or 1 |
| Records.ValueOrZero | dashboard.py:112 | one cell's contribution to pandas `sum`, 0 for a missing cell; it has no ensures of its own, and `Records.MissingTokensAddNothing` states that missing cells add nothing |
| Records.MissingTokensAddNothing | dashboard.py:50 | rows whose token is missing change neither the token sum nor the token count |
| AiReport.GroupAiByDate | dashboard.py:50-52 | one row per distinct date, strictly ascending, with the same dates as the input; each row's `token_sum` is the day's token sum, `count` the day's number of present tokens and `cost` 0.25 times `count` |
| AiReport.GroupedAiResums | dashboard.py:50-52 | the daily `token_sum`, `count` and `cost` columns add up to the table's token sum, its number of present tokens, and 0.25 per present token |
| AiReport.GroupedAiCountsRows | dashboard.py:50 | when no token is missing, the daily counts add up to the number of AI responses |
| AiReport.AiFilterCommutes | dashboard.py:186 | cutting the grouped table to the range gives the grouping of the rows in the range |
| AiReport.CustomRangeApiReport | dashboard.py:193-205 | the table is empty exactly when nothing is in range, holds exactly the in-range daily rows, is newest first for an ascending input, and its totals are the column sums of the in-range rows; cost is 0.25 per call |
| AiReport.FlatRateTotal | dashboard.py:52 | rows taken from a table costed at $0.25 per call total $0.25 per call |
| AiReport.ApiReportOverRows | dashboard.py:186-205 | over the raw rows, the table is the range's daily groups newest first; total tokens, calls and cost are the range's token sum, present-token count and 0.25 per call; an empty range gives an empty table and 0, 0, 0.0 |
| ModelReport.SortModelTable | dashboard.py:53 | the sorted table keeps its columns, is ordered newest first and holds exactly the same rows |
| ModelReport.ResolveFlagColumn | dashboard.py:241 | the flag column is `standard_status` exactly when the table has that column, and `standard` otherwise |
| ModelReport.HasColumn | dashboard.py:241 | whether the table has the given flag column; it has no ensures of its own, and `ModelReport.ModelCreateSection` states that the section fails exactly when the resolved column is absent and the range holds rows |
| ModelReport.Standardized | dashboard.py:245 | the per-row weight `(x == 1)` on the chosen flag column; it has no ensures of its own, and `Records.IsOne` states the weight |
| ModelReport.GroupModelsByDate | dashboard.py:243-249 | one row per distinct date, strictly ascending; `Total Count` is the day's count of present model ids, `Standardized` the day's number of rows whose flag is 1, and `Non-Standardized` their difference |
| ModelReport.ModelCreateSection | dashboard.py:240-252 | fails with a missing `standard` column exactly when the range holds rows and the resolved flag column is absent; an empty range gives an empty table and zero totals; otherwise the table is the range's daily groups (`GroupModelsByDate` of the rows in range) newest first, non-empty, with the range's dates; `total_models` is the number of present model ids in range, `total_standardized` the number of rows flagged 1, and `Non-Standardized = Total Count - Standardized` per row and in total |
| ModelReport.SummaryOf | dashboard.py:248-263 | the displayed table and the three cards for a range holding rows; it has no ensures of its own, and `ModelReport.SummaryTotals`, `ModelReport.DisplayedModelDays` and `ModelReport.ModelTotalsOverRows` state its properties |
| ModelReport.SummaryTotals | dashboard.py:261-262 | the `total_models` and `total_standardized` cards of the grouped table equal the count of present model ids and of rows flagged 1 over the ungrouped rows |
| ModelReport.DisplayedModelDays | dashboard.py:248-250 | for a range holding rows, the displayed table is non-empty, strictly newest first, shows the range's dates, and has `Non-Standardized = Total Count - Standardized` on every row |
| ModelReport.GroupedModelsResum | dashboard.py:243-249 | the daily `Total Count` and `Standardized` columns add up to the same counts over the ungrouped rows |
| ModelReport.ModelTotalsOverRows | dashboard.py:261-263 | the cards are the count of present model ids in the range and the number of rows flagged 1; the non-standardized card is also the sum of the daily `Non-Standardized` column |
| ModelReport.NonStandardizedColumn | dashboard.py:249 | summing `Non-Standardized` over a table gives `Total Count` sum minus `Standardized` sum |
| ModelReport.NonStandardizedNonNegative | dashboard.py:249 | when no model id is missing, every daily `Non-Standardized` value and the total are at least 0 |
| ModelReport.GroupedNonNegative | dashboard.py:244-249 | when no model id is missing, every day's `Non-Standardized` is at least 0, in ascending and in newest-first order |
| ModelReport.StandardizedAtMostTotal | dashboard.py:244-245 | when no model id is missing, the rows flagged 1 are no more than the counted model ids |
| ModelReport.MissingModelIdGivesNegativeNonStandardized | dashboard.py:244-249 | a single row with no model id and flag 1 yields a `Non-Standardized` total of -1 |
| ModelReport.SectionIgnoresRowOrder | dashboard.py:187 | two tables with the same columns and the same rows in any order give the same section |
| ModelReport.GroupingIgnoresRowOrder | dashboard.py:243 | grouping tables holding the same rows in any order gives the same grouped table |
| ModelReport.SortedTableSameSection | dashboard.py:53 | the load-time sort does not change the section for any range |
| PhotoReport.GroupPhotosByDate | dashboard.py:323-324 | one row per distinct date, strictly ascending; the day's image sum, number of present listing numbers and sum of web-open flags |
| PhotoReport.PhotoUploadSection | dashboard.py:315-328 | the table is empty exactly when nothing is in range, in which case all totals are 0; otherwise it holds the range's daily groups, strictly newest first |
| PhotoReport.GroupedPhotosResum | dashboard.py:323 | the three daily columns add up to the same sums over the ungrouped rows |
| PhotoReport.PhotoTotalsOverRows | dashboard.py:329-331 | the three cards are the range's image sum, number of present listing numbers and web-open sum |
| PhotoReport.SgnoTotalCountsRows | dashboard.py:323 | when no listing number is missing, `Total sgno` is the number of uploads in the range |
| PeriodStats.TrailingWindow | dashboard.py:104-105 | the window ends today and contains exactly the days after today minus `days_ago`, up to today; it spans `days_ago` days, so its start is `today - (days_ago - 1)`, and a 1-day window starts and ends today |
| PeriodStats.StatsIgnoreModelOrder | dashboard.py:108 | the summaries do not depend on the order of the model-creation rows: tables holding the same rows give the same summary |
| PeriodStats.CalculatePeriodStats | dashboard.py:95-127 | the counts are the numbers of rows in the window, the token and image figures are the window's sums, the cost is 0.25 per counted row, and a window no row falls into gives zeros |
| Dashboard.BuildPage | dashboard.py:157-165 | each of the daily, weekly and monthly summaries is `calculate_period_stats` of the tables as loaded for 1, 7 and 30 days, so the sort at line 53 changes none of them; their windows end today and span 1, 7 and 30 days; the AI table and cards are the custom-range report of the grouped table, whose table is the range's daily groups newest first; the model-creation section on the sorted table equals the section on the table as loaded; the photo-upload section exists exactly when the model-creation section did not fail, and is then the section of the range |
| Dashboard.MissingFlagColumnStopsPage | dashboard.py:243 | a model table with neither flag column and a row in range fails with a missing `standard` column, and no photo-upload section follows |
| Dashboard.WindowAndRangeAgree | dashboard.py:186-205 | for a range equal to a trailing window, the summary and the sections report the same tokens and images; the same calls and cost when no token is missing; the same listings when no `sgno` is missing; and the same model count when no model id is missing |

## Left out

- Loading the tables from MySQL, the cache and the reload button: I/O. The loaded tables are parameters.
- Turning the timestamp columns into calendar dates: dates are given as day numbers, and a missing (`NaT`) date is not modelled.
- The clock and time zone: `today` and the picked range are parameters. The default picker start of 365 days back and the two clocks the page reads (local time for the summaries, Seoul time for the pickers) are not modelled.
- Streamlit layout, the HTML summary cards, number formatting, the CSS and `dashboard.js`, the charts and any other rendering: they change no number.
- Floating point: sums and costs are exact integers and reals. The `int(...)` casts of the totals are the identity on those values.
- Integer width: the model does not capture pandas' `int64` overflow, because sums are unbounded integers.
- Aggregation.SortByDateDesc: it is a stable insertion sort, while pandas' `sort_values` may order rows of the same date differently. The model does not fix that tie order. `ModelReport.SectionIgnoresRowOrder` shows that nothing computed from the sorted table depends on it.
- The guard inside the `Standardized` lambda, which returns 0 when the column is absent: it cannot run, because `agg` fails on the missing column first (see above).
- ModelReport.NonStandardizedNonNegative: it needs every model id to be present. `ModelReport.MissingModelIdGivesNegativeNonStandardized` shows that the value can be negative without that.
