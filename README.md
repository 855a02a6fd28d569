# KPI computation for a restaurant's sales and purchases

This project models, in Dafny, the KPI layer of `KPI.py`. That layer restricts sales and
purchase tables to a reporting window of dates and computes three independent KPI groups:

- **sales**: total revenue, revenue per day, and revenue from member (customer-attributed) sales;
- **customers**: the number of repeat customers and the mean number of distinct purchase
  dates per customer, both read from the sales table;
- **purchases**: total procurement cost and cost per item (quantity × unit price).

Each group first runs early-return validations. An absent table, a table without rows, or
a missing required date column yields an empty result. Otherwise the group filters its
input by date and aggregates. An exception inside the computation also makes the group
empty.

## Layout

| file | module | what it holds |
|---|---|---|
| `optional.dfy` | `Optional` | `Option` |
| `dates.dfy` | `Dates` | `Date` (year, month, day) with its order `NotAfter`, the `Window` and `InWindow`, the configured window `ReportWindow` |
| `frames.dfy` | `Frames` | `Frame` (a column set plus ordered rows) and `Kpi`, the outcome of a group: `Computed`, `Skipped` or `Failed` |
| `filtering.dfy` | `Filtering` | `filter_by_date`: the specification `Filter`, its lemmas, and the methods `KeepInWindow` and `FilterByDate` |
| `aggregation.dfy` | `Aggregation` | column sums, `groupby(...).sum()` as `GroupSum`, and the sum of a map's values |
| `sales.dfy` | `Sales` | `calc_sales_kpi` |
| `customers.dfy` | `Customers` | `calc_customer_kpis` |
| `purchases.dfy` | `Purchases` | `calc_purchase_kpis` |
| `kpi_tests.dfy` | `KpiTests` | the test suite's expectations, stated as lemmas |

How the source maps onto the model:

- **Tables.** A DataFrame is a `Frame(columns, rows)`. The `"x" in df.columns` validations
  test `columns`.
- **Missing columns.** Some columns are read only inside the `try` block: `total_amount` and
  `customer_id` for sales, `quantity`, `unit_price` and `item_name` for purchases. When one
  of them is absent, the model returns `Failed(column)`. This stands for the `KeyError`
  that the aggregator catches. Columns are checked in the order the code reads them.
- **Filtering.** `filter_by_date` becomes the method `FilterByDate`. It keeps the two
  conditional rebindings of the source (start bound, then end bound), and each rebinding is
  a loop (`KeepInWindow`). Both are proved equal to the recursive function `Filter`. The
  aggregators are functions, so they use `Filter` directly.
- **The window.** The module-level `START_DATE`/`END_DATE` become a `Window` parameter.
  `ReportWindow` is the configured 2025-01-01..2025-12-31.
- **Mean purchase frequency.** It is a `Ratio(num, den)` instead of a float. The
  numerator is computed as the number of distinct (customer, date) pairs.
  `VisitPairsAreSumOfCounts` proves that this number equals the sum over customers of
  their `nunique()` date counts. That sum is what the source's `.mean()` divides.

Points where the code's behaviour is easy to misread:

- `calc_customer_kpis` takes only the sales table. The customer table is never consulted,
  so there is no customer-table check.
- The validations of `calc_customer_kpis` require both `customer_id` and `sales_date`.
  It reads no other column, so in the model the customer group never fails. In the code, a
  `sales_date` value that cannot be parsed raises inside the `try` (KPI.py:56, 135) and also
  empties the group. That case is left out together with date parsing.
- `filter_by_date` itself does not check that the date column exists. The calling
  aggregators check it before they call it.

## Model

| member | source | states |
|---|---|---|
| `Filtering.Filter` | KPI.py:45-61 | the result is no longer than the input and every row it keeps has its date in the window |
| `Filtering.FilterKeepsExactly` | KPI.py:57-60 | a row is kept iff it is in the input and (no start or date ≥ start) and (no end or date ≤ end); a kept row keeps its multiplicity, a dropped one has none |
| `Filtering.FilterAppend` | KPI.py:57-60 | filtering a concatenation is the concatenation of the filtered parts, so input order is preserved |
| `Filtering.FilterIsSubsequence` | KPI.py:56-61 | the result is a subsequence of the input |
| `Filtering.FilterKeepsAllInWindow` | KPI.py:57-60 | a table whose every date is in the window passes unchanged |
| `Filtering.FilterIdempotent` | KPI.py:56-61 | filtering the filtered table with the same window returns it unchanged |
| `Filtering.FilterUnbounded` | KPI.py:57-60 | with both bounds absent nothing is excluded |
| `Filtering.FilterInStages` | KPI.py:57-60 | the start-bound selection followed by the end-bound selection equals filtering by the whole window |
| `Filtering.BoundsAreInclusive` | KPI.py:57-60 | a row dated exactly on the start or the end bound is kept when start is not after end |
| `Filtering.KeepInWindow` | KPI.py:58 | one boolean-mask selection returns exactly `Filter` of its input |
| `Filtering.FilterByDate` | KPI.py:45-61 | the two conditional rebindings of the table return exactly `Filter` of the input by the window |
| `Dates.NotAfterIsTotalOrder` | KPI.py:58-60 | the date comparison is reflexive, total, antisymmetric and transitive |
| `Aggregation.GroupSum` | KPI.py:95 | a group-by sum has one key per distinct key value of the rows and no other |
| `Aggregation.GroupSumPerKey` | KPI.py:95 | each group holds the sum of the values of the rows with that key |
| `Aggregation.GroupSumTotal` | KPI.py:92-95 | the group sums add up to the column sum |
| `Aggregation.SumPartition` | KPI.py:100 | the sum over rows selected by a predicate plus the sum over the rest is the whole sum |
| `Sales.CalcSalesKpi` | KPI.py:64-109 | absent table or no rows gives `Skipped(EmptyInput)`; else no `sales_date` column gives `Skipped(MissingColumn)`; else a missing `total_amount` (first) or `customer_id` column gives `Failed`; the result renders as an empty dict iff the table is absent, has no rows, or lacks a column the group reads; otherwise the figures of the window's rows |
| `Sales.TotalIsMemberPlusGuest` | KPI.py:92-100 | total revenue equals member sales plus the amounts of sales without a customer id |
| `Sales.DailyRevenueByDate` | KPI.py:95-97 | a date is a key of daily revenue iff some sale has that date, and its value is the sum of that date's amounts |
| `Sales.DailyRevenueAddsUp` | KPI.py:92-97 | the daily revenues add up to the total revenue |
| `Sales.DailyRevenueWithinWindow` | KPI.py:89-97 | a date is a key of a computed group's daily revenue iff it lies in the window and some input sale has it |
| `Customers.DistinctDatesGroups` | KPI.py:143-144 | grouping by customer yields one group per present customer id, holding exactly that customer's distinct sales dates |
| `Customers.CalcCustomerKpis` | KPI.py:112-161 | absent table or no rows gives `Skipped(EmptyInput)`; else a missing `customer_id` or `sales_date` column gives `Skipped(MissingColumn)`; never `Failed`; the result renders as an empty dict iff the table is absent, has no rows, or lacks a column the group reads; otherwise the figures of the window's rows |
| `Customers.RepeatCustomersCounted` | KPI.py:139-146 | repeat customers are the customers with more than one distinct date; zero for an empty window; never more than the number of customers |
| `Customers.VisitPairsAreSumOfCounts` | KPI.py:153 | the number of distinct (customer, date) pairs equals the sum of the per-customer distinct-date counts |
| `Customers.AverageFrequencyIsMean` | KPI.py:150-153 | the mean is 0/1 with no customers, else (sum of per-customer distinct-date counts) / (number of customers), and then at least 1 |
| `Purchases.CalcPurchaseKpis` | KPI.py:164-206 | absent table or no rows gives `Skipped(EmptyInput)`; else no `purchase_date` column gives `Skipped(MissingColumn)`; else the first missing of `quantity`, `unit_price`, `item_name` gives `Failed`; the result renders as an empty dict iff the table is absent, has no rows, or lacks a column the group reads; otherwise the figures of the window's rows |
| `Purchases.ProductAmountByItem` | KPI.py:192-197 | an item is a key iff some purchase is of it, and its value is the sum of quantity × unit price over that item's purchases; an item with no key has sum 0 |
| `Purchases.ProductAmountsAddUp` | KPI.py:189-197 | the per-item costs add up to the total purchase amount |
| `Purchases.ProductAmountWithinWindow` | KPI.py:186-197 | an item is a key of a computed group iff some purchase of it lies in the window |
| `KpiTests.FilterByDateExample` | test_kpi.py:13-16 | of 2025-01-01, 2025-06-01 and 2026-01-01, the window keeps the first two |
| `KpiTests.SalesKpiExample` | test_kpi.py:19-30 | total 3000, daily {2025-01-10: 1000, 2025-01-11: 2000}, member sales 1000 |
| `KpiTests.CustomerKpisExample` | test_kpi.py:33-42 | one repeat customer and a mean frequency of 3/2 |
| `KpiTests.PurchaseKpisExample` | test_kpi.py:45-56 | total 2000 and {"A": 2000} |
| `KpiTests.SalesOnCustomerTableFails` | KPI.py:86-109 | a sales table without `total_amount` makes the sales group fail |

## Left out

- `read_csv`, `print_result`, `main` and all console logging (KPI.py:25-42, 209-249) are file I/O and output. The report that `print_result` assembles from the three groups is not modelled either. The three groups are separate functions of their own inputs, so none can affect another.
- `bin/to_md.py` converts notebooks to Markdown and has no KPI logic.
- Date parsing (`pd.to_datetime`) and the `strftime` keys of daily revenue are left out. Dates are already-parsed `(year, month, day)` triples ordered lexicographically, with no calendar validation. Daily revenue is keyed by `Date`, not by its `YYYY-MM-DD` string. pandas `groupby` sorts its keys (KPI.py:95, 193), so the code emits `daily_revenue` in date order and `product_purchase_amount` in item-name order. The model's maps have no order, and key order is not modelled.
- The in-place coercion of the date column in `filter_by_date` (KPI.py:56) is the identity on already-parsed dates. The model works on immutable values, so the caller's table is unchanged after each aggregator by construction. The `.copy()` calls (KPI.py:89, 135, 186) therefore need no separate statement.
- The float result of `average_purchase_frequency` is represented as the exact `Ratio(num, den)`.
- Amounts, quantities and prices are integers, so the `int(...)` truncations (KPI.py:92, 100, 189, and `astype(int)`) are the identity. Fractional amounts, NaN amounts that `sum` would skip, and non-numeric values cannot be represented. The only failure modelled is a missing column.
- pandas also reports a frame with no columns as empty. The model tests only the number of rows. A table with rows but none of the columns still yields an empty result, because its date column is missing.
- Customer ids are integers. Item names are strings, compared exactly.
- Purchases.PurchaseFigures, Purchases.CalcPurchaseKpis, Purchases.ProductAmountByItem: on a window with no purchases, the model gives an empty per-item map, with no keys. On that path pandas' zero-group `groupby(...)[["quantity", "unit_price"]].apply(...)` (KPI.py:192-197) is read here as yielding an empty DataFrame, whose `to_dict()` is `{"quantity": {}, "unit_price": {}}`. The model does not reproduce that shape.
- Sales.DailyRevenueAddsUp: pandas `groupby` drops missing keys (KPI.py:95), but the column sum at KPI.py:92 still counts their rows. A NaT `sales_date`, possible when both window bounds are absent, is counted in total revenue but under no date. The daily values then do not add up to the total. The model proves that they do add up, because a `SalesRow` date can never be missing.
- Purchases.ProductAmountsAddUp: likewise, `groupby("item_name")` (KPI.py:193) drops a blank `item_name`, while the total at KPI.py:189 counts that row's cost. In the code, the per-item values then fall short of the total. The model proves that they add up, because a `PurchaseRow` item name can never be missing.
- Customers.AverageFrequencyIsMean: with both window bounds absent, a missing `sales_date` becomes NaT (KPI.py:56) and passes the filter. `nunique()` (KPI.py:143-144, 153) does not count NaT, but the customer still counts toward `customer_id.nunique()` (KPI.py:150) and still has a group. In the code, a customer whose dates are all NaT therefore counts 0 distinct dates, and the mean can fall below 1; one such row gives 0.0. The model proves the mean is at least 1, because a `SalesRow` date can never be missing.
- Aggregation.Sum, Purchases.Cost: `quantity * unit_price` (KPI.py:189) and the `.sum()` calls (KPI.py:92, 95, 100, 189) run on int64 columns, which wrap silently past 2^63 - 1. The model's integers are unbounded, so int64 wrap-around is not modelled.
