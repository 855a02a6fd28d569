/** The expectations of the test suite, stated on the model with the
    configured reporting window. */
module KpiTests {
  import opened Optional
  import opened Dates
  import opened Frames
  import opened Filtering
  import opened Aggregation
  import opened Sales
  import opened Customers
  import opened Purchases

  function DateItself(d: Date): Date { d }

  /** Of three dates, the first (on the start bound) and the second survive;
      the third, after the end bound, does not. */
  lemma FilterByDateExample()
    ensures Filter([Date(2025, 1, 1), Date(2025, 6, 1), Date(2026, 1, 1)], DateItself, ReportWindow)
         == [Date(2025, 1, 1), Date(2025, 6, 1)]
  {
  }

  /** A member sale of 1000 and a non-member sale of 2000 on two days. */
  lemma SalesKpiExample()
    ensures CalcSalesKpi(
              Some(Frame({SalesDateColumn, TotalAmountColumn, CustomerIdColumn},
                         [SalesRow(Date(2025, 1, 10), 1000, Some(1)), SalesRow(Date(2025, 1, 11), 2000, None)])),
              ReportWindow)
         == Computed(SalesKpi(3000, map[Date(2025, 1, 10) := 1000, Date(2025, 1, 11) := 2000], 1000))
  {
    var rows := [SalesRow(Date(2025, 1, 10), 1000, Some(1)), SalesRow(Date(2025, 1, 11), 2000, None)];
    assert Filter(rows, SaleDate, ReportWindow) == rows;
    assert GroupSum(rows, SaleDate, SaleAmount) == map[Date(2025, 1, 10) := 1000, Date(2025, 1, 11) := 2000];
  }

  const D10 := Date(2025, 1, 10)
  const D11 := Date(2025, 1, 11)

  /** The customer test's rows: customer 1 on two dates, customer 2 on one. */
  const CustomerTestRows: seq<SalesRow> :=
    [SalesRow(D10, 0, Some(1)), SalesRow(D11, 0, Some(1)), SalesRow(D10, 0, Some(2))]

  lemma CustomerTestGroups()
    ensures DistinctDates(CustomerTestRows) == CustomerTestGroupsValue
  {
    var rows := CustomerTestRows;
    var last, tail := [SalesRow(D10, 0, Some(2))], [SalesRow(D11, 0, Some(1)), SalesRow(D10, 0, Some(2))];
    assert rows[1..] == tail && tail[1..] == last && last[1..] == [];
    var empty: map<CustomerId, set<Date>> := map[];
    assert DistinctDates([]) == empty;
    DistinctDatesStep(last);
    assert {} + {D10} == {D10};
    assert DistinctDates(last) == map[2 := {D10}];
    DistinctDatesStep(tail);
    assert {} + {D11} == {D11};
    assert DistinctDates(tail) == map[2 := {D10}, 1 := {D11}];
    DistinctDatesStep(rows);
    assert {D11} + {D10} == {D10, D11};
  }

  const CustomerTestGroupsValue: map<CustomerId, set<Date>> := map[1 := {D10, D11}, 2 := {D10}]

  lemma CustomerTestRepeaters()
    ensures |set c | c in CustomerTestGroupsValue && |CustomerTestGroupsValue[c]| > 1| == 1
  {
    var visits := CustomerTestGroupsValue;
    assert |visits[1]| == 2 && |visits[2]| == 1;
    assert (set c | c in visits && |visits[c]| > 1) == {1};
  }

  lemma CustomerTestVisits()
    ensures |VisitPairs(CustomerTestRows)| == 3
  {
    var rows := CustomerTestRows;
    var last, tail := [SalesRow(D10, 0, Some(2))], [SalesRow(D11, 0, Some(1)), SalesRow(D10, 0, Some(2))];
    assert rows[1..] == tail && tail[1..] == last && last[1..] == [];
    assert VisitPairs([]) == {};
    VisitPairsStep(last);
    VisitPairsStep(tail);
    VisitPairsStep(rows);
    assert VisitPairs(rows) == {(2, D10), (1, D11), (1, D10)};
  }

  lemma CustomerTestFigures()
    ensures CustomerFigures(CustomerTestRows) == CustomerKpi(1, Ratio(3, 2))
  {
    CustomerTestGroups();
    CustomerTestRepeaters();
    CustomerTestVisits();
    assert |CustomerTestGroupsValue| == 2;
    assert CustomerTestRows[0] in CustomerTestRows;
    assert 1 in CustomersOf(CustomerTestRows);
  }

  /** Customer 1 buys on two dates, customer 2 on one: one repeat customer and
      a mean frequency of 3/2. The table has no amount column. */
  lemma CustomerKpisExample()
    ensures CalcCustomerKpis(Some(Frame({SalesDateColumn, CustomerIdColumn}, CustomerTestRows)), ReportWindow)
         == Computed(CustomerKpi(1, Ratio(3, 2)))
  {
    FilterKeepsAllInWindow(CustomerTestRows, SaleDate, ReportWindow);
    CustomerTestFigures();
  }

  /** The purchase test's rows: two purchases of item "A". */
  const PurchaseTestRows: seq<PurchaseRow> :=
    [PurchaseRow(Date(2025, 1, 1), "A", 10, 100), PurchaseRow(Date(2025, 1, 2), "A", 5, 200)]

  lemma PurchaseTestFigures()
    ensures PurchaseFigures(PurchaseTestRows) == PurchaseKpi(2000, map["A" := 2000])
  {
    var rows := PurchaseTestRows;
    assert Cost(rows[0]) == 1000 && Cost(rows[1]) == 1000;
    assert rows[1..] == [rows[1]] && rows[1..][1..] == [];
    assert Sum(rows, Cost) == 2000;
    assert GroupSum(rows[1..], ItemName, Cost) == map["A" := 1000];
    assert GroupSum(rows, ItemName, Cost) == map["A" := 2000];
  }

  /** Two purchases of item "A": 10 at 100 and 5 at 200. */
  lemma PurchaseKpisExample()
    ensures CalcPurchaseKpis(
              Some(Frame({PurchaseDateColumn, ItemNameColumn, QuantityColumn, UnitPriceColumn}, PurchaseTestRows)),
              ReportWindow)
         == Computed(PurchaseKpi(2000, map["A" := 2000]))
  {
    FilterKeepsAllInWindow(PurchaseTestRows, PurchaseDate, ReportWindow);
    PurchaseTestFigures();
  }

  /** The customer test's table lacks the amount column, so the sales group
      on it fails while the customer group is computed. */
  lemma SalesOnCustomerTableFails()
    ensures CalcSalesKpi(Some(Frame({SalesDateColumn, CustomerIdColumn}, [SalesRow(Date(2025, 1, 10), 0, Some(1))])), ReportWindow)
         == Failed(TotalAmountColumn)
  {
  }
}
