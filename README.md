# Retail sales aggregation, modelled in Dafny

This project models the aggregation core of a small retail business-intelligence
repository. A generator script writes a table of sales transactions. Four analysis
scripts each reshape that table into one summary table before plotting it:

- `rank_product_profitability` sums profit per product category and ranks the
  categories from most to least profitable;
- `analyze_profit` sums profit per (product category, region, order month);
- `analyze_regional_performance` sums sales and profit per region, both in one
  grouping;
- `analyze_sales_trend` sums sales per order month, in chronological order, and
  shows each month as the first day of that month.

The generator `generate_sales_data` builds order IDs `ORD00000`, `ORD00001`, …,
truncates timestamps to dates, rounds sales and cost to two decimals and adds
`profit = sales - cost`.

Layout, one module per file:

| file | module | what it holds |
|---|---|---|
| `ordering.dfy` | `Ordering` | strict total orders; Python's string comparison `StrLess` |
| `dates.dfy` | `Dates` | calendar dates, month keys (`to_period('M')`), first day of a month (`to_timestamp()`) |
| `sales.dfy` | `Sales` | the transaction record, the table with its added `month` column, the numeric columns, brute-force `Filter`/`SumOf`/`KeysOf`, the grouping keys |
| `groupby.dfy` | `GroupBy` | `groupby(key)[cols].sum().reset_index()` as a fold into a key-sorted table, proved against filter-and-sum |
| `product_profitability.dfy` | `ProductProfitability` | grouping by category, then a descending sort by profit |
| `profit_analysis.dfy` | `ProfitAnalysis` | grouping by (category, region, month) |
| `regional_performance.dfy` | `RegionalPerformance` | grouping by region with two summed columns |
| `sales_trend.dfy` | `SalesTrend` | grouping by month, then months turned into first-day dates |
| `data_prep.dfy` | `DataPrep` | order IDs, cent rounding, the generated DataFrame as a class updated in place |

Money is held in integer cents once it leaves the generator, so sums are exact.
The generator's raw draws are `real`s; `round(2)` is modelled as rounding to the
nearest cent.

Grouping is modelled once, generically, in `GroupBy`. pandas' `groupby` sorts its
keys by default, so every grouped table comes out in ascending key order. The
model keeps the table as an association list sorted by key and folds the records
into it in input order. A key gets a row only when one of its records arrives,
so keys without records never appear. Each analysis module instantiates this
fold with its own key and columns. It then proves four things about its output
table:

- its keys are exactly the keys that occur in the input, each once, in order;
- each row's sums equal a brute-force filter-and-sum over the records with that
  key;
- the column totals are conserved;
- worked examples are proved: category profits A 10, B 30, A 5 rank as
  (B, 30), (A, 15), and sales of 100 and 40 in January 2024 and 250 in
  March 2024 give exactly two monthly rows, (2024-01-01, 140) and
  (2024-03-01, 250), with no zero-filled February.

Three choices follow from the code:

- `sort_values(by='profit', ascending=False)` uses pandas' default sort, which
  is not stable, so the model promises only that the ranking is a
  non-increasing permutation of the grouped rows; ties keep no particular order.
- `groupby` sorts its keys, so every grouped table ascends by key:
  lexicographically by code point for strings, level by level for the
  (category, region, month) triple, chronologically for months.
- The code sums `float64` values; the model sums exact integer cents.

## Model

| member | source | states |
|---|---|---|
| Ordering.StrLessIrreflexive | OLAP/product_profitability.py:33 | no string sorts before itself, so key order can never put one category in two rows |
| Ordering.StrLessTransitive | OLAP/product_profitability.py:33 | string comparison, used to sort group keys, is transitive |
| Ordering.StrLessTotal | OLAP/product_profitability.py:33 | any two distinct strings are comparable |
| Ordering.StrLessIsStrictTotalOrder | OLAP/regional_performance.py:33 | string comparison is a strict total order, as sorting group keys requires |
| Dates.DaysInMonth | OLAP/sales_trend.py:33 | a month has 28 to 31 days, and 29 exactly for February of a leap year |
| Dates.MonthOf | OLAP/profit_analysis.py:33 | `to_period('M')` maps every valid date to a valid month and drops the day |
| Dates.FirstDay | OLAP/sales_trend.py:38 | `to_timestamp()` gives a day-1 date whose month is the period itself, and a valid date for a valid month |
| Dates.SameMonthKey | OLAP/sales_trend.py:33 | two dates share a month key exactly when year and month agree, whatever the day |
| Dates.FirstDayIsEarliest | OLAP/sales_trend.py:38 | the representative first day is on or before every date of its month, and buckets back to that month |
| Dates.MonthOfMonotone | OLAP/sales_trend.py:33 | a later date never falls in an earlier month |
| Dates.FirstDayMonotone | OLAP/sales_trend.py:38 | months are in order exactly when their first days are, in both directions |
| Dates.MonthLessIsStrictTotalOrder | OLAP/sales_trend.py:37 | chronological month order is a strict total order |
| Sales.SalesTable.constructor | OLAP/profit_analysis.py:29 | the table read holds the given records and no month column yet |
| Sales.SalesTable.AddMonthColumn | OLAP/profit_analysis.py:33 | the month column, added in place, holds each record's valid order month; the records are unchanged |
| Sales.OrderMonth | OLAP/profit_analysis.py:33 | the `month` column of a record is a valid month with the year and month of its order date (see also `Dates.SameMonthKey`) |
| Sales.CellOf | OLAP/profit_analysis.py:33-37 | the grouping key of the breakdown carries the record's category and region and the valid month of its order date (see also `Sales.CellMatch`) |
| Sales.Filter | OLAP/regional_performance.py:33 | a record is selected exactly when it is in the input and has the key, and the selection is no longer than the input |
| Sales.KeysOfSnoc | OLAP/profit_analysis.py:37 | the occurring keys of a prefix plus one record are the prefix's keys plus that record's key |
| Sales.CellLessIsStrictTotalOrder | OLAP/profit_analysis.py:37 | the level-by-level order of (category, region, month) keys is a strict total order |
| Sales.CellLessIrreflexive | OLAP/profit_analysis.py:37 | no (category, region, month) key sorts before itself |
| Sales.CellMatch | OLAP/profit_analysis.py:37 | a record belongs to a cell exactly when category, region and month all match |
| GroupBy.ColumnSums | OLAP/regional_performance.py:33 | entry `j` of the summed row is the total of column `cols[j]` over the records |
| GroupBy.Lookup | OLAP/product_profitability.py:33 | looking up a key gives a row of sums as wide as the selected columns |
| GroupBy.AddTo | OLAP/product_profitability.py:33 | adding one record keeps the table's width and adds at most one row |
| GroupBy.GroupBySum | OLAP/product_profitability.py:33 | the grouped table has the selected columns' width and no more rows than records |
| GroupBy.SortedTail | OLAP/product_profitability.py:33 | the tail of a key-sorted table is sorted and all its keys follow the head's |
| GroupBy.LookupAbsent | OLAP/product_profitability.py:33 | a key without a row has zero sums |
| GroupBy.LookupAt | OLAP/product_profitability.py:33 | in a key-sorted table, looking up a row's key finds that row |
| GroupBy.SortedKeysCount | OLAP/profit_analysis.py:37 | a key-sorted table has exactly as many rows as distinct keys |
| GroupBy.PlusZeros | OLAP/product_profitability.py:33 | adding a record's values to zero sums gives its values |
| GroupBy.KeysCons | OLAP/product_profitability.py:33 | the keys of a table are its first key plus the keys of its tail |
| GroupBy.AddToKeys | OLAP/product_profitability.py:33 | accumulating a record gives its key a row and leaves the other keys as they were |
| GroupBy.AddToSorted | OLAP/product_profitability.py:33 | accumulating a record keeps the table in ascending key order |
| GroupBy.AddToLookup | OLAP/product_profitability.py:33 | accumulating a record adds its values to its own key's sums and changes no other key's sums |
| GroupBy.AddToTotal | OLAP/product_profitability.py:33 | accumulating a record adds its value to every column total |
| GroupBy.GroupBySumSpec | OLAP/product_profitability.py:33 | the fold is sorted, has exactly the occurring keys, gives every key the filter-and-sum of its records and conserves every column total |
| GroupBy.GroupBySumCorrect | OLAP/regional_performance.py:33 | the same row by row: sorted, exactly the occurring keys, one row per distinct key (at most one per record), each row's sums equal to filter-and-sum, totals conserved |
| GroupBy.RowKeys | OLAP/product_profitability.py:33 | output rows that carry the table's keys row for row carry exactly its keys |
| GroupBy.SumByColumn | OLAP/product_profitability.py:33 | output rows that carry a table column row for row have that column's total |
| ProductProfitability.ProfitByCategory | OLAP/product_profitability.py:33 | the grouped table has no more rows than records and is empty for empty input; its keys, sums and total are stated by `ProfitByCategoryKeys`, `ProfitByCategorySums` and `ProfitByCategoryTotal` |
| ProductProfitability.ProfitByCategoryKeys | OLAP/product_profitability.py:33 | exactly the occurring categories get a row, each once, in ascending string order, with no more rows than records |
| ProductProfitability.ProfitByCategorySums | OLAP/product_profitability.py:33 | each category's profit is the total profit of exactly its own records |
| ProductProfitability.ProfitByCategoryTotal | OLAP/product_profitability.py:33 | the category profits add up to the total profit |
| ProductProfitability.InsertByProfit | OLAP/product_profitability.py:34 | inserting a row gives the old rows plus that row, as a multiset |
| ProductProfitability.InsertKeepsOrder | OLAP/product_profitability.py:34 | insertion into a non-increasing list keeps it non-increasing |
| ProductProfitability.InsertKeepsTotal | OLAP/product_profitability.py:34 | insertion adds the row's profit to the total |
| ProductProfitability.InsertKeepsDistinct | OLAP/product_profitability.py:34 | inserting a new category keeps categories distinct |
| ProductProfitability.SortByProfitDescending | OLAP/product_profitability.py:34 | the sorted rows are a permutation of the input, non-increasing in profit, with the same total |
| ProductProfitability.SortKeepsDistinct | OLAP/product_profitability.py:34 | sorting keeps categories distinct |
| ProductProfitability.RankProductProfitability | OLAP/product_profitability.py:33-34 | the ranking is a permutation of the grouped rows and every adjacent pair is non-increasing in profit |
| ProductProfitability.SameRows | OLAP/product_profitability.py:34 | two row lists with the same multiset hold the same rows |
| ProductProfitability.RankedCategories | OLAP/product_profitability.py:33-34 | the ranking has exactly one row per occurring category, and empty input gives an empty ranking |
| ProductProfitability.RankedProfits | OLAP/product_profitability.py:33-34 | every ranked row's profit is its category's filter-and-sum, and the ranked profits add up to the total profit |
| ProductProfitability.GroupingExample | OLAP/product_profitability.py:33 | profits A 10, B 30, A 5 group to A 15, B 30 |
| ProductProfitability.RankingExample | OLAP/product_profitability.py:33-34 | profits A 10, B 30, A 5 rank as (B, 30), (A, 15) |
| ProfitAnalysis.AnalyzeProfit | OLAP/profit_analysis.py:33-37 | the breakdown has no more rows than records and is empty for empty input; its triples, sums and total are stated by `AnalyzeProfitKeys`, `AnalyzeProfitSums` and `AnalyzeProfitTotal` |
| ProfitAnalysis.AnalyzeProfitKeys | OLAP/profit_analysis.py:33-37 | every occurring (category, region, month) triple gets exactly one row and no other triple does; rows ascend level by level; the row count equals the number of distinct triples and is at most the number of records |
| ProfitAnalysis.AnalyzeProfitSums | OLAP/profit_analysis.py:33-37 | each cell's profit is the total profit of exactly the records matching it in category, region and month |
| ProfitAnalysis.RunAnalyzeProfit | OLAP/profit_analysis.py:33-37 | after the month column is added in place, each record's month entry is the month component of its grouping key, and the result is the grouped breakdown |
| ProfitAnalysis.AnalyzeProfitTotal | OLAP/profit_analysis.py:37 | the cell profits add up to the total profit, so no record is skipped or counted twice |
| RegionalPerformance.AnalyzeRegionalPerformance | OLAP/regional_performance.py:33 | the rollup has no more rows than records and is empty for empty input; its regions, joint sums and totals are stated by `RegionalKeys`, `RegionalSums` and `RegionalTotals` |
| RegionalPerformance.RegionalKeys | OLAP/regional_performance.py:33 | exactly the occurring regions get a row, each once, in ascending order; empty input gives no rows |
| RegionalPerformance.RegionalSums | OLAP/regional_performance.py:33 | a row's sales and profit are both sums over one and the same set of records, those of its region |
| RegionalPerformance.RegionalTotals | OLAP/regional_performance.py:33 | region sales add up to total sales and region profits to total profit |
| SalesTrend.SalesByMonth | OLAP/sales_trend.py:37 | the monthly table has no more rows than records and is empty for empty input; its months and sums are stated through `AnalyzeSalesTrend` by `SalesTrendMonths`, `SalesTrendSums` and `SalesTrendTotal` |
| SalesTrend.AnalyzeSalesTrend | OLAP/sales_trend.py:33-38 | the trend has no more rows than records and every row's date is a first day of a month; its months, order, sums and total are stated by `SalesTrendMonths`, `SalesTrendSums` and `SalesTrendTotal` |
| SalesTrend.MonthsToTimestamps | OLAP/sales_trend.py:38 | every month is replaced by a day-1 date in that month; sales are unchanged |
| SalesTrend.RunAnalyzeSalesTrend | OLAP/sales_trend.py:33-38 | after the month column is added in place, each record's month entry is the key it is grouped by, and the result is the monthly table with first-day dates |
| SalesTrend.SalesTrendMonths | OLAP/sales_trend.py:33-38 | only months with records appear, each once, strictly ascending by month and by date, each shown as a valid first day |
| SalesTrend.SalesTrendSums | OLAP/sales_trend.py:33-37 | each month's sales are the total sales of exactly the records dated in that month |
| SalesTrend.SalesTrendTotal | OLAP/sales_trend.py:37 | the monthly sales add up to the total sales |
| SalesTrend.NoZeroFilledGap | OLAP/sales_trend.py:33-38 | sales in January and March 2024 only give exactly two rows, 2024-01-01 and 2024-03-01, with no zero row for February |
| DataPrep.DigitChar | scripts/data_prep.py:40 | a digit value becomes a decimal digit character |
| DataPrep.DigitValue | scripts/data_prep.py:40 | a digit character reads back as the digit value that produced it |
| DataPrep.Digits | scripts/data_prep.py:40 | the decimal form of a number is a non-empty string of digits |
| DataPrep.OrderId | scripts/data_prep.py:40 | an order ID is `ORD` followed by digits, at least 8 characters; `ParseOrderIdRoundTrip`, `OrderIdInjective` and `OrderIdLength` state that it reads back as its index, is unique and is exactly 8 long below 100000 |
| DataPrep.ZeroPad5 | scripts/data_prep.py:40 | the `05d` field is all digits, reads back as the number, and is five characters wide or as wide as the number's digits if wider |
| DataPrep.ParseOrderId | scripts/data_prep.py:40 | a string that parses as an order ID starts with `ORD` |
| DataPrep.DigitsRoundTrip | scripts/data_prep.py:40 | reading a number's decimal digits gives the number back |
| DataPrep.LeadingZeros | scripts/data_prep.py:40 | zero padding does not change a number's value |
| DataPrep.ZerosValue | scripts/data_prep.py:40 | a string of zeros reads as 0 |
| DataPrep.DigitsLength | scripts/data_prep.py:40 | a number has at most `k` digits exactly when it is below 10^k |
| DataPrep.ParseOrderIdRoundTrip | scripts/data_prep.py:40 | reading an order ID gives back the index it was built from |
| DataPrep.OrderIdInjective | scripts/data_prep.py:40 | distinct indices give distinct order IDs |
| DataPrep.OrderIdLength | scripts/data_prep.py:40 | an order ID is 8 characters long exactly when its index is below 100000 |
| DataPrep.OrderIds | scripts/data_prep.py:40 | the ID column has one ID per record; all IDs are distinct and each reads back as its row index |
| DataPrep.RoundCents | scripts/data_prep.py:56-57 | the result is the nearest whole number of cents, within half a cent |
| DataPrep.Round2 | scripts/data_prep.py:56-57 | `round(2)` moves an amount by at most half a cent; `Round2IsWholeCents` states the result is a whole number of cents |
| DataPrep.Round2IsWholeCents | scripts/data_prep.py:56-57 | a rounded amount is a whole number of cents and reads back as the rounded cents |
| DataPrep.RoundCentsMonotone | scripts/data_prep.py:56-57 | rounding never reverses the order of two amounts |
| DataPrep.ProfitIsExact | scripts/data_prep.py:60 | the difference of two rounded amounts is unchanged by `round(2)`, so profit is exactly sales minus cost in cents |
| DataPrep.CentsOfRoundedRow | scripts/data_prep.py:56-60 | a rounded row carries the rounded draws in cents and its profit is exactly their difference |
| DataPrep.ProfitRange | scripts/data_prep.py:44-45 | sales drawn from [10, 500] and cost from [5, 200] give 1000..50000 and 500..20000 cents and a profit within -19000..49500 cents |
| DataPrep.SalesFrame.constructor | scripts/data_prep.py:50 | the DataFrame holds the given columns, all of one length, with no profit column yet |
| DataPrep.SalesFrame.TruncateDates | scripts/data_prep.py:53 | every order date keeps its calendar date and loses its time of day; no other column changes |
| DataPrep.SalesFrame.RoundAmounts | scripts/data_prep.py:56-57 | every sales amount and cost is replaced by its rounding to two decimals; no other column changes |
| DataPrep.SalesFrame.AddProfit | scripts/data_prep.py:60 | the profit column becomes the rounded difference of sales and cost, row by row; no other column changes |
| DataPrep.SalesFrame.Rows | scripts/data_prep.py:63 | the written table has one record per DataFrame row |
| DataPrep.BuildSalesFrame | scripts/data_prep.py:38-60 | row `i` of the DataFrame holds ID `i`, the `i`-th date draw without its time, the `i`-th categorical draws, the rounded amounts and their rounded difference |
| DataPrep.GenerateSalesData | scripts/data_prep.py:38-63 | one record per requested row; row i's ID is `OrderId(i)`, the `ORD{i:05d}` string, so IDs are distinct, read back as their index and have 8 characters below 100000; amounts are the draws rounded to cents; profit is exactly sales minus cost; with in-range draws, profit lies within -19000..49500 cents |

## Left out

- File I/O, the output directory, logging, the `try`/`except` that prints an error, and all plotting (`seaborn`, `matplotlib`) are not modelled. The summary tables are the model's outputs.
- `pd.read_csv` and `pd.to_datetime` parsing are not modelled. Records arrive already parsed, with valid calendar dates (`CalendarDate`) and amounts in whole cents. In the scripts, `read_csv` can raise `FileNotFoundError`, `EmptyDataError` or `ParserError`, and `to_datetime` raises on a date it cannot parse. Each script's catch-all `except` (e.g. OLAP/product_profitability.py:52-54, OLAP/sales_trend.py:56-58) logs and prints the error and produces no table. The model has no such failure path: its analyses are total functions of well-formed records.
- `read_csv`'s dtype inference is not modelled: `productCategory` and `region` are strings as written. When every value of a key column looks like an integer, pandas reads it as `int64`. `groupby` then orders it numerically (`9` before `10`) and merges `007` with `7`. The model compares such keys as distinct strings under `StrLess`.
- Missing values are not modelled: every `Record` is complete. pandas reads an empty field (or `NA`, `null`, `nan`) as NaN; `groupby` then drops rows whose key is NaN (its default `dropna=True`) and `sum()` skips NaN amounts. The model treats an empty string as an ordinary key and has no missing amounts. So the lemmas on exactly the occurring keys and on conserved totals (`ProfitByCategoryKeys`, `ProfitByCategoryTotal`, `AnalyzeProfitKeys`, `AnalyzeProfitTotal`, `RegionalKeys`, `RegionalTotals`, `SalesTrendMonths`, `SalesTrendTotal`) hold for complete records only.
- The random draws (`np.random.choice`, `np.random.uniform`, the seed) and `datetime.now()` are parameters of `GenerateSalesData`: one sequence per column. The categorical draws are indices into the fixed lists. `pd.date_range` is not modelled; its days arrive as the `Timestamp` draws.
- DataPrep.RoundCents: does not model `float64` representation or numpy's round-half-to-even; exact halves round up, and `real` arithmetic stands in for binary floating point.
- The analysis scripts sum `float64` values; the model sums exact integer cents, so floating-point drift in long sums is not modelled.
- ProductProfitability.RankProductProfitability: does not fix the order of rows with equal profit, because pandas' default `sort_values` is not stable; insertion sort stands in for pandas' sort algorithm.
- The in-place replacement of the `month` column at `OLAP/sales_trend.py:38` is modelled as building a new table (`MonthsToTimestamps`): the column changes type from period to timestamp, which a field of fixed type cannot.
- Grouping is a fold into a sorted association list, which is quadratic in the worst case. pandas' hash-based grouping is faster, but this is a cost question and does not change the result.
- pandas `Timestamp` range limits (years 1677 to 2262) and time zones are not modelled; years are unbounded integers.
- Calling an analysis twice on the same input gives the same table. That is not stated as a lemma, because every operation here is a mathematical function.
