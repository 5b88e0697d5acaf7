# RFM scoring, cohort retention and retail data cleaning in Dafny

This project models the analytical core of an e-commerce customer-analysis
package and proves properties of it:

- **RFM analysis** (`src/rfm_analysis.py`). Per customer it computes
  Recency (whole days since the last purchase), Frequency (distinct
  invoices) and Monetary (total spend). Each metric is scored 1–5 by
  quintile binning (`pandas.qcut` over numpy's linear quantiles). Frequency
  is first turned into a first-occurrence rank. The three scores form a
  three-digit RFM code, and every customer gets one of eight segments by an
  ordered rule list. The per-segment summary counts customers and sums
  revenue, then sorts by revenue.
- **Cohort analysis** (`src/cohort_analysis.py`). Each customer's cohort is
  the calendar month of their first purchase. Each purchase falls in a
  period: the number of months since the cohort month. Retention is the
  number of cohort customers active in a period divided by the number active
  in period 0.
- **Data cleaning** (`src/data_cleaning.py`). The file suffix chooses a
  reader. Column names are standardised by a 26-entry rename table applied
  in place, in order. Cleaning then drops, one after another:
  - rows without a customer;
  - invoices containing `C`;
  - rows with a non-positive quantity or price;
  - rows whose TotalAmount is 10000 or more.

The modules follow the source files.

| module | contents |
|---|---|
| `Wrappers` | `Option` and `Result`. |
| `Seqs` | Filtering and mapping over sequences, sums. |
| `Quantiles` | Linear quantile edges, `qcut` with right-closed bins (the first also closed on the left) and `rank(method='first')`. |
| `Segments` | `get_segment` and the segment summary. |
| `RfmAnalysis` | Metrics and scoring, plus the classes `RfmTable` (the RFM frame, whose score and segment columns are added in place) and `RfmAnalyzer`. |
| `Cohorts` | Cohort and period arithmetic, the retention matrix, and the class `CohortAnalysis` with its cached `retentionData`. |
| `DataCleaning` | The rename table and the filters, plus the class `DataLoader`. Its `df` is replaced in place by the rename loop and the cleaning pipeline. |

Modelling conventions:

- Timestamps in the RFM part are whole seconds. `.days` of a difference is
  its floor division by 86400.
- Cohort timestamps are calendar fields (year, month, day, second of day),
  compared lexicographically.
- Amounts are exact reals.
- Customer ids are integers. `groupby` lists them in ascending order, which
  fixes the tie order of the Frequency rank.
- Failures that the source raises as exceptions are `Failure` values:
  - `qcut`'s duplicate-edges error, which also covers an empty column;
  - a missing column;
  - a column that renaming has duplicated, where the pipeline needs a
    single column (`DuplicateColumn`);
  - data that was never loaded;
  - an unsupported file suffix;
  - an empty table in the cohort matrix, where `iloc[:, 0]` has no column
    to take (`NoColumns`);
  - scoring with no table given before `calculate_rfm` has run, where
    `None.copy()` fails (`NoMetrics`).

Where the code and its documentation differ, the model follows the code:

- The cancellation filter drops invoices with a `C` anywhere, not only a
  leading one.
- `.xls` files are accepted along with `.xlsx`.
- `score_rfm` and `segment_customers` change the table they are given
  instead of returning a new one. When a later score column cannot be
  binned, the earlier ones stay added.
- `qcut` fails exactly when two of the six interpolated edges coincide
  (`RScoreFails`, `MScoreFails`). The code has no fallback policy for this.

## Model

| member | source | states |
|---|---|---|
| `Quantiles.Sort` | src/rfm_analysis.py:54 | The values `qcut` takes quantiles of, in ascending order. |
| `Quantiles.SortPermutes` | src/rfm_analysis.py:54 | The sorted column is a permutation of the column. |
| `Quantiles.QuantileEdges` | src/rfm_analysis.py:54 | There are six edges, and the outer two are the column's minimum and maximum. |
| `Quantiles.QuantileAt` | src/rfm_analysis.py:54 | numpy's linear quantile at position num/5: the order statistic there when num/5 is whole, otherwise a value between the two neighbouring order statistics. |
| `Quantiles.EdgesAscending` | src/rfm_analysis.py:54 | The quintile edges are ascending. |
| `Quantiles.BinInterval` | src/rfm_analysis.py:54 | With strictly increasing edges, a value gets bin k exactly when it lies in (e[k-1], e[k]]. The first bin also holds e[0]. |
| `Quantiles.QCutSucceeds` | src/rfm_analysis.py:54 | `qcut` succeeds exactly when the column is non-empty and its six edges are pairwise distinct. |
| `Quantiles.Bin` | src/rfm_analysis.py:54 | The label `qcut` gives a value (searchsorted on the edges, with the minimum placed in the first bin) lies between 0 and the number of edges, and is at least 1 for a value not below the first edge. |
| `Quantiles.QCut` | src/rfm_analysis.py:54 | A successful cut gives one label in 1..5 per value. |
| `Quantiles.QCutMonotone` | src/rfm_analysis.py:54 | A smaller or equal value never gets a larger bin. |
| `Quantiles.QCutIntervals` | src/rfm_analysis.py:54 | Every value lies in the interval of the bin it was given. |
| `Quantiles.FirstRank` | src/rfm_analysis.py:57 | `rank(method='first')` of a position lies in 1..n. |
| `Quantiles.FirstRanks` | src/rfm_analysis.py:57 | The rank column has one rank in 1..n per value, each the first-occurrence rank of its position. |
| `Quantiles.RankOrder` | src/rfm_analysis.py:57 | A smaller value, or an equal value that comes earlier, gets a smaller rank. |
| `Quantiles.RanksDistinctWhole` | src/rfm_analysis.py:57 | The ranks of n values are n distinct whole numbers in 1..n. |
| `Quantiles.SortedRanks` | src/rfm_analysis.py:57 | The sorted ranks are exactly 1, 2, …, n. |
| `Quantiles.IotaEdgeValues` | src/rfm_analysis.py:57-58 | The quintile edges of the ranks 1..n start at 1 and are one step (n − 1)/5 apart. |
| `Quantiles.IotaEdges` | src/rfm_analysis.py:57-58 | The quintile edges of 1..n are distinct exactly when n ≥ 2. |
| `Quantiles.FirstRankCut` | src/rfm_analysis.py:57-58 | Binning the ranks of any n frequencies succeeds exactly when n ≥ 2, ties or not. |
| `Segments.GetSegment` | src/rfm_analysis.py:73-91 | Champions exactly when all three scores are ≥ 4. Potential Loyalists only with r = 3. Others only with r ≥ 3 and m ≤ 2. |
| `Segments.SegmentRegions` | src/rfm_analysis.py:73-91 | The rule list picks segment s exactly when the scores lie in s's region. The eight regions, with earlier rules subtracted, partition the score space. |
| `Segments.PotentialLoyalistShadowed` | src/rfm_analysis.py:80-83 | With f ≤ 2 and m ≥ 3, r = 4 and r = 5 give New Customers, and only r = 3 reaches Potential Loyalists. |
| `Segments.Label` | src/rfm_analysis.py:76-91 | The label string `get_segment` returns for each segment. It has no contract of its own: `LabelsDistinct` and `LabelOrderSorted` state its properties. |
| `Segments.LabelsDistinct` | src/rfm_analysis.py:73-91 | Different segments return different labels. |
| `Segments.LabelOrderSorted` | src/rfm_analysis.py:98 | The group order is the ascending order of the label strings, as `groupby` sorts them. |
| `Segments.LabelOrderComplete` | src/rfm_analysis.py:98 | Every segment occurs exactly once in the group order. |
| `Segments.Count` | src/rfm_analysis.py:98-99 | The `count` of a segment is the number of its occurrences in the Segment column (its multiplicity), at most the number of rows. |
| `Segments.Revenue` | src/rfm_analysis.py:98-102 | The Monetary sum of a segment is 0 when the segment has no customer. When every customer of the segment has positive Monetary, it is positive exactly when the segment has a customer. |
| `Segments.Groups` | src/rfm_analysis.py:98-103 | Every segment that occurs has a row holding its customer count and its summed Monetary. No row for an absent segment. |
| `Segments.GroupsDistinct` | src/rfm_analysis.py:98 | Grouping over an order without repeats gives no segment two rows. |
| `Segments.LabelOrderDistinct` | src/rfm_analysis.py:98 | The group order lists each segment at one position only. |
| `Segments.InsertByRevenue` | src/rfm_analysis.py:109 | Inserting keeps the rows in descending revenue order, adds exactly the new row, and adds its count to the total. |
| `Segments.SortByRevenue` | src/rfm_analysis.py:109 | The result is in descending Total_Revenue order and is a permutation of its input. |
| `Segments.Summary` | src/rfm_analysis.py:96-109 | The summary is the grouped rows, permuted into descending revenue order, with no segment in two rows. |
| `Segments.InsertDistinct` | src/rfm_analysis.py:109 | Inserting a row of a segment not yet present keeps every segment to one row. |
| `Segments.SortDistinct` | src/rfm_analysis.py:109 | Sorting by revenue never gives a segment two rows. |
| `Segments.SummaryCountsAddUp` | src/rfm_analysis.py:98-99 | The counts of the summary rows add up to the number of customers. |
| `Segments.SummaryRows` | src/rfm_analysis.py:98-109 | A segment has a summary row exactly when it has a customer. Every row's count and revenue are those of its segment. |
| `RfmAnalysis.InsertId` | src/rfm_analysis.py:32 | Adding an id keeps the id list strictly ascending, and the result holds exactly the old ids plus the new one. |
| `RfmAnalysis.Customers` | src/rfm_analysis.py:32 | The group keys are strictly ascending and are exactly the customers of the table. |
| `RfmAnalysis.Lines` | src/rfm_analysis.py:32 | A customer's group holds each of that customer's lines exactly as often as the table does, and no other line, in table order. It is non-empty for a customer of the table. |
| `RfmAnalysis.Latest` | src/rfm_analysis.py:27 | `max()` is an element of the column and is at least every element. |
| `RfmAnalysis.DefaultReference` | src/rfm_analysis.py:26-27 | The default reference date is at least one day after every purchase, and exactly one day after the latest one. |
| `RfmAnalysis.ReferenceFor` | src/rfm_analysis.py:26-27 | A given reference date is used as it is. Without one, every purchase lies before the reference date. |
| `RfmAnalysis.Invoices` | src/rfm_analysis.py:34 | `nunique` of Invoice counts the distinct invoice numbers present, skipping missing ones, and never more than the number of lines. |
| `RfmAnalysis.WholeDays` | src/rfm_analysis.py:33 | `.days` is the largest whole number of days not exceeding the span, negative spans included. |
| `RfmAnalysis.Mean` | src/rfm_analysis.py:35 | The mean times the count is the sum. |
| `RfmAnalysis.MetricsOf` | src/rfm_analysis.py:32-36 | A customer's row has Recency equal to the whole days from the last purchase to the reference date, Frequency equal to the number of distinct invoices, Monetary equal to the sum of amounts, and AvgOrderValue equal to their mean. |
| `RfmAnalysis.MetricsFor` | src/rfm_analysis.py:32-39 | There is one metrics row per group key, in key order. |
| `RfmAnalysis.Grouped` | src/rfm_analysis.py:32-39 | Every row of the aggregated table is the metrics row of a customer of the table, and every customer has their metrics row in it. |
| `RfmAnalysis.OneRowPerCustomer` | src/rfm_analysis.py:32-39 | The aggregated table lists every customer exactly once, in ascending order. |
| `RfmAnalysis.KeepRow` | src/rfm_analysis.py:42 | The validity test Monetary > 0 and Frequency > 0. It has no contract of its own: `ValidRows` and `RfmRows` state what it keeps. |
| `RfmAnalysis.ValidRows` | src/rfm_analysis.py:42 | Exactly the rows with Monetary > 0 and Frequency > 0 are kept, in their original order. |
| `RfmAnalysis.RfmRows` | src/rfm_analysis.py:32-44 | A row is in the RFM table exactly when it is the metrics row of a customer of the table and has Monetary > 0 and Frequency > 0. |
| `RfmAnalysis.DefaultRecency` | src/rfm_analysis.py:26-33 | With the default reference date, every Recency is ≥ 1. It is exactly 1 when the customer's last purchase is less than a day before the table's latest one. |
| `RfmAnalysis.Reversed` | src/rfm_analysis.py:54 | The labels `[5,4,3,2,1]` turn bin b into 6 − b. |
| `RfmAnalysis.RScores` | src/rfm_analysis.py:54 | A successful R_Score column has one score in 1..5 per row. |
| `RfmAnalysis.RScoreFails` | src/rfm_analysis.py:54 | R_Score fails exactly when the table is empty or the Recency edges repeat. |
| `RfmAnalysis.RScoreOrder` | src/rfm_analysis.py:54 | R_Score lies in 1..5, and a smaller or equal Recency never gets a lower R_Score. |
| `RfmAnalysis.FScores` | src/rfm_analysis.py:57-58 | A successful F_Score column has one score in 1..5 per row. |
| `RfmAnalysis.FScoreSucceeds` | src/rfm_analysis.py:57-58 | F_Score succeeds exactly when the table has at least two customers. |
| `RfmAnalysis.FScoreOrder` | src/rfm_analysis.py:57-58 | F_Score lies in 1..5 and follows Frequency, with ties broken by table order. |
| `RfmAnalysis.MScores` | src/rfm_analysis.py:61 | A successful M_Score column has one score in 1..5 per row. |
| `RfmAnalysis.MScoreFails` | src/rfm_analysis.py:61 | M_Score fails exactly when the table is empty or the Monetary edges repeat. |
| `RfmAnalysis.MScoreOrder` | src/rfm_analysis.py:61 | M_Score lies in 1..5, and a larger or equal Monetary never gets a lower M_Score. |
| `RfmAnalysis.ScoreCode` | src/rfm_analysis.py:64-66 | The code has three characters, and their digit values are R, F and M in that order. |
| `RfmAnalysis.ScoreCodes` | src/rfm_analysis.py:64-66 | The RFM_Score column holds one code per row, built from that row's scores. |
| `RfmAnalysis.ScoreCodeInjective` | src/rfm_analysis.py:64-66 | Equal codes imply equal score triples. |
| `RfmAnalysis.ScoreRanges` | src/rfm_analysis.py:54-61 | When all three columns can be binned, every score lies in 1..5. |
| `RfmAnalysis.Scoring` | src/rfm_analysis.py:54-66 | A failure leaves RFM_Score as it was. Success adds all four columns. |
| `RfmAnalysis.ScoringColumns` | src/rfm_analysis.py:54-66 | Columns are added in R, F, M order, and scoring stops at the first column that cannot be binned. The error names that column. The columns before it are already replaced. RFM_Score is added only when all three succeed. |
| `RfmAnalysis.ScoringFits` | src/rfm_analysis.py:54-66 | Every score column present has one entry per row, before and after scoring. |
| `RfmAnalysis.FrequencyNeverFails` | src/rfm_analysis.py:57-58 | With at least two customers, scoring never fails on the Frequency column. |
| `RfmAnalysis.SegmentsOf` | src/rfm_analysis.py:93 | The Segment column is `get_segment` applied to every row's three scores. |
| `RfmAnalysis.RfmTable.constructor` | src/rfm_analysis.py:39-44 | A new RFM table holds the metric rows and no score or segment column. |
| `RfmAnalysis.RfmTable.Copy` | src/rfm_analysis.py:50-51 | The copy has the same rows and columns as the original. |
| `RfmAnalysis.RfmTable.AddScores` | src/rfm_analysis.py:54-66 | The table's score columns become those scoring computes, and the error is scoring's. Rows and Segment are unchanged, and every column still fits the rows. |
| `RfmAnalysis.RfmAnalyzer.constructor` | src/rfm_analysis.py:13-21 | The analyser holds the transactions and no RFM table yet. |
| `RfmAnalysis.RfmAnalyzer.CalculateRfm` | src/rfm_analysis.py:23-46 | A new table is stored and returned. Its rows are the filtered per-customer metrics for the given or default reference date. |
| `RfmAnalysis.RfmAnalyzer.ScoreRfm` | src/rfm_analysis.py:48-68 | Without an argument: a copy of the stored table is scored, or NoMetrics when there is none. With one: the given table is scored in place. Success exactly when scoring reports no error. |
| `RfmAnalysis.RfmAnalyzer.SegmentCustomers` | src/rfm_analysis.py:70-94 | When the three score columns are present, the Segment column is added in place and nothing else changes. Otherwise it fails and the table is untouched. |
| `RfmAnalysis.RfmAnalyzer.GetSegmentSummary` | src/rfm_analysis.py:96-109 | Succeeds exactly when the Segment column exists. The rows are in descending revenue order, their counts add up to the number of customers, and each row holds its segment's count (> 0) and Monetary sum. No segment has two rows, and every segment with a customer has its row. |
| `Cohorts.PeriodOf` | src/cohort_analysis.py:19 | The monthly period of a timestamp keeps its year and month. |
| `Cohorts.MonthIndexOrder` | src/cohort_analysis.py:25 | The month index follows time order, and two periods have equal indices exactly when they are equal. |
| `Cohorts.FirstPurchase` | src/cohort_analysis.py:21 | The customer's minimum InvoiceDate is one of their dates and no later than any of them. |
| `Cohorts.CohortGroup` | src/cohort_analysis.py:21 | The cohort of a customer is the month of one of their purchases, and no purchase of theirs lies in an earlier month. |
| `Cohorts.PeriodNumber` | src/cohort_analysis.py:25 | The period number of a purchase is never negative. It is 0 exactly when the purchase falls in its customer's cohort month. |
| `Cohorts.FirstRowAtPeriodZero` | src/cohort_analysis.py:21-25 | Every customer has a row at period 0: their first purchase. |
| `Cohorts.Active` | src/cohort_analysis.py:28 | The customers counted in a cell all belong to that cohort, and no cell has a negative period. |
| `Cohorts.Cells` | src/cohort_analysis.py:28-29 | A non-empty table has at least one cell. |
| `Cohorts.CellPresent` | src/cohort_analysis.py:28-29 | A (cohort, period) cell is present exactly when some customer of the cohort is active in that period. |
| `Cohorts.ActiveWithinCohort` | src/cohort_analysis.py:28-32 | The customers active in any period are among those active in period 0, and period 0 holds the whole cohort. |
| `Cohorts.FirstColumnIsPeriodZero` | src/cohort_analysis.py:32 | Every present cell has a non-negative period and a period-0 cell in its row, so `iloc[:, 0]` is the period-0 column. A non-empty table has such a column. |
| `Cohorts.CohortCounts` | src/cohort_analysis.py:28-29 | The pivot has exactly the cells that occur, and each holds that cell's number of distinct customers (> 0). |
| `Cohorts.RetentionOf` | src/cohort_analysis.py:32-33 | The retention matrix has exactly the cells that occur. Each value is the share of the cohort's customers that are active in that period, and the cohort is never empty. |
| `Cohorts.RetentionBounds` | src/cohort_analysis.py:32-33 | Every retention value lies in (0, 1], and it is exactly 1 at period 0. |
| `Cohorts.CohortSize` | src/cohort_analysis.py:32 | The cohort size is the number of customers in the cohort. |
| `Cohorts.FullRetention` | src/cohort_analysis.py:33 | A period in which every cohort customer is active has retention 1. |
| `Cohorts.SingleCustomerRetention` | src/cohort_analysis.py:28-33 | With a single customer, every present cell has retention 1, whatever months are skipped. |
| `Cohorts.DayIgnored` | src/cohort_analysis.py:19-25 | Purchases on 31 January and 1 February fall in cohort 2011-01 and period 1: the day of the month plays no part. |
| `Cohorts.GapSamplePeriods` | src/cohort_analysis.py:21-25 | For purchases in January, January and March, the cohort is January and the periods are 0, 0 and 2. |
| `Cohorts.GapIsAbsent` | src/cohort_analysis.py:28-29 | A month without purchases is an absent cell, not a zero: periods 0 and 2 are present and period 1 is not. |
| `Cohorts.GapRetention` | src/cohort_analysis.py:32-33 | The customer who skips February has retention 1 in March. |
| `Cohorts.CohortAnalysis.constructor` | src/cohort_analysis.py:11-13 | The analyser holds its table and no retention matrix yet. |
| `Cohorts.CohortAnalysis.CreateCohortMatrix` | src/cohort_analysis.py:15-36 | An empty table fails with no first column and leaves the cache alone. Otherwise the retention matrix is returned and stored. |
| `DataCleaning.ReaderFor` | src/data_cleaning.py:19-24 | `.csv` selects the CSV reader. A non-`.csv` path ending in `.xlsx` or `.xls` selects the Excel reader. Any other path fails. |
| `DataCleaning.ReaderExamples` | src/data_cleaning.py:19-24 | `.csv`, `.xlsx` and `.xls` paths are read. Upper-case `.CSV` and `.txt` paths are refused. |
| `DataCleaning.TargetsAreTheValues` | src/data_cleaning.py:37-79 | Every rename target is one of the eight canonical column names. |
| `DataCleaning.MappingHasNoChains` | src/data_cleaning.py:37-79 | Every key that is also a target maps to itself, so no rename feeds into a later one. |
| `DataCleaning.Canonical` | src/data_cleaning.py:37-79 | A column name becomes a canonical name or stays as it is. |
| `DataCleaning.RenamedBy` | src/data_cleaning.py:82-84 | After the first i renames, a name is unchanged or is the target of one of those entries, and it can change only through an entry whose key differs from its target. |
| `DataCleaning.RenamedByIsLookup` | src/data_cleaning.py:82-84 | For a chain-free table, applying the renames in order sends a name to the target of its first matching key, or leaves it alone. |
| `DataCleaning.SequentialIsCanonical` | src/data_cleaning.py:82-84 | The rename loop sends every name to its canonical name. |
| `DataCleaning.CanonicalIdempotent` | src/data_cleaning.py:37-84 | Standardising a canonical name changes nothing. |
| `DataCleaning.RenameColumn` | src/data_cleaning.py:84 | `rename` replaces every column with the old name by the new one and keeps the others in place. |
| `DataCleaning.RenamedAll` | src/data_cleaning.py:82-84 | After the first i renames, every column holds its own name renamed in order. |
| `DataCleaning.RenameStep` | src/data_cleaning.py:82-84 | One pass of the loop renames only when the key is present and differs from its target. |
| `DataCleaning.Standardized` | src/data_cleaning.py:82-84 | Every column becomes its canonical name, and the column count is kept. |
| `DataCleaning.StandardizedIdempotent` | src/data_cleaning.py:34-87 | Standardising twice is standardising once. |
| `DataCleaning.WithTotal` | src/data_cleaning.py:108 | TotalAmount becomes Quantity × UnitPrice and nothing else changes, so the new row has the same Quantity × UnitPrice. |
| `DataCleaning.NotCancelled` | src/data_cleaning.py:102 | The cancellation test: the invoice text contains no `C` anywhere. It has no contract of its own: `CleanRowsSound` states that no survivor has one. |
| `DataCleaning.Keep` | src/data_cleaning.py:98-114 | The conjunction of the four tests: customer present, no `C`, positive quantity and price, and Quantity × UnitPrice < 10000. It has no contract of its own: `CleanRowsSound` and `CleanRowsComplete` state it. |
| `DataCleaning.CleanRows` | src/data_cleaning.py:98-114 | Cleaning never adds rows, and a row failing any test never appears in the output, with or without its TotalAmount. |
| `DataCleaning.CleanRowsSound` | src/data_cleaning.py:98-114 | Every cleaned row has a customer, an invoice without `C`, a positive quantity and price, and TotalAmount = Quantity × UnitPrice < 10000. |
| `DataCleaning.CleanRowsComplete` | src/data_cleaning.py:98-114 | Every row passing all the tests survives with its TotalAmount. Survivors keep their order, with one output row per kept row. |
| `DataCleaning.StepwiseCleaning` | src/data_cleaning.py:98-114 | The filters applied one after another, with TotalAmount added before the outlier test, give exactly the rows of the single-test reference. |
| `DataCleaning.ColumnProblem` | src/data_cleaning.py:98-111 | The first column problem in the pipeline's read order. There is none exactly when every required column is present and none of InvoiceNo, Quantity, UnitPrice and InvoiceDate occurs twice. Without duplicates, the problem is the first missing column. A reported column is absent, or it is one of those four and occurs at least twice. |
| `DataCleaning.DateIsRenamed` | src/data_cleaning.py:75 | `Date` is renamed to InvoiceDate. |
| `DataCleaning.DateAndInvoiceDateCollide` | src/data_cleaning.py:75-87 | A table with both `Date` and `InvoiceDate` gets two InvoiceDate columns. |
| `DataCleaning.DuplicateDateFails` | src/data_cleaning.py:111 | A table with two InvoiceDate columns fails on the duplicate InvoiceDate. |
| `DataCleaning.FirstMissing` | src/data_cleaning.py:98-111 | No column is reported exactly when all five required columns are present. A reported column is required and absent, and every required column the pipeline reads before it is present. |
| `DataCleaning.CleanColumns` | src/data_cleaning.py:108 | The cleaned table keeps every column and has a TotalAmount column. |
| `DataCleaning.DataLoader.constructor` | src/data_cleaning.py:13-15 | The loader holds its path and no data. |
| `DataCleaning.DataLoader.StandardizeColumns` | src/data_cleaning.py:34-87 | The rename loop, run in place, leaves the table's columns standardised and its rows unchanged. It fails when no data is loaded. |
| `DataCleaning.DataLoader.LoadData` | src/data_cleaning.py:17-32 | An unsupported suffix fails and keeps the old data. Otherwise the data read by the chosen reader is stored with standardised columns. |
| `DataCleaning.DataLoader.CleanData` | src/data_cleaning.py:89-118 | No data gives NoData. A missing or duplicated column gives the first such problem the pipeline runs into (`ColumnProblem`). In both cases the data is unchanged. Otherwise the stored table is replaced by the cleaned rows, with a TotalAmount column. |

## Left out

- Floating point: amounts and ratios are exact reals, so float rounding in sums, means, quantile interpolation and retention fractions is not modelled.
- Segments.Summary: the Avg_Recency, Avg_Frequency and Avg_Monetary columns, the `round(2)` and `round(1)` rounding, and the Percentage and Revenue_Share columns are not modelled. The summary keeps Count and Total_Revenue only.
- Segments.SortByRevenue: the model's sort is stable. `sort_values` uses a non-stable quicksort, so the order of segments with equal revenue is not modelled.
- RfmAnalysis.RfmAnalyzer.constructor: the configurable column names (`customer_col`, `date_col`, `amount_col`, `invoice_col`) are fixed to their defaults.
- RfmAnalysis.RfmAnalyzer.CalculateRfm: timestamps are whole seconds; sub-second resolution is not modelled.
- Cohorts.CohortAnalysis.CreateCohortMatrix: the matrix is a map keyed by (cohort, period). The row and column order of the pivot table and its NaN holes are represented only by absent keys.
- Cohorts: customer ids are integers, so rows with a missing CustomerID are not represented. In `create_cohort_matrix` such a row gets no CohortGroup, and the period subtraction at src/cohort_analysis.py:25 would raise on it; the model has no such failure.
- RfmAnalysis.DefaultReference: rows with a missing CustomerID are not represented. In `calculate_rfm` the `groupby` drops them, but their dates still count toward the default reference date at src/rfm_analysis.py:27, so a later purchase without a customer would shift every Recency; the model takes the latest date over rows with a customer only.
- DataCleaning.DataLoader.CleanData: `pd.to_datetime` parsing is not modelled. Dates are already parsed, so the step leaves rows unchanged. Missing Quantity or UnitPrice values (NaN) are not represented. A row holds one value per column name, so a table with two CustomerID columns (which the source cleans, dropping a row when either is missing) is represented with one.
- DataCleaning.DataLoader.LoadData: reading CSV or Excel files is a parameter `read` (reader, path) → table. File contents and parse errors are not modelled.
- Printing of progress messages is left out everywhere.
- Clustering (`src/clustering.py`), plotting (`src/visualization.py`, `visualize_cohort`), `save_clean_data`, `load_and_clean` and the driver script are not part of this model.
