/** `calc_sales_kpi`: total revenue, revenue per day and member revenue. */
module Sales {
  import opened Optional
  import opened Dates
  import opened Frames
  import opened Filtering
  import opened Aggregation

  type CustomerId = int

  datatype SalesColumn = SalesDateColumn | TotalAmountColumn | CustomerIdColumn

  /** One sale; `customerId` is absent for a non-member sale. */
  datatype SalesRow = SalesRow(salesDate: Date, totalAmount: int, customerId: Option<CustomerId>)

  type SalesFrame = Frame<SalesColumn, SalesRow>

  datatype SalesKpi = SalesKpi(totalRevenue: int, dailyRevenue: map<Date, int>, memberSales: int)

  function SaleDate(s: SalesRow): Date { s.salesDate }

  function SaleAmount(s: SalesRow): int { s.totalAmount }

  predicate IsMemberSale(s: SalesRow) { s.customerId.Some? }

  predicate IsGuestSale(s: SalesRow) { s.customerId.None? }

  /** The figures of the sales KPI group, computed on the rows already
      restricted to the window. */
  function SalesFigures(f: seq<SalesRow>): SalesKpi {
    SalesKpi(
      Sum(f, SaleAmount),
      GroupSum(f, SaleDate, SaleAmount),
      SumWhere(f, SaleAmount, IsMemberSale))
  }

  /** The sales KPI group: the early-return validations, then the figures of
      the window's rows; reading a column the table lacks fails the group. */
  function CalcSalesKpi(sales: Option<SalesFrame>, w: Window): (r: Kpi<SalesKpi, SalesColumn>)
    ensures r == Skipped(EmptyInput) <==> sales.None? || |sales.value.rows| == 0
    ensures r == Skipped(MissingColumn)
        <==> sales.Some? && |sales.value.rows| > 0 && SalesDateColumn !in sales.value.columns
    ensures r.Failed?
        <==> && sales.Some? && |sales.value.rows| > 0 && SalesDateColumn in sales.value.columns
             && !(TotalAmountColumn in sales.value.columns && CustomerIdColumn in sales.value.columns)
    ensures r.IsEmptyDict()
        <==> || sales.None? || |sales.value.rows| == 0
             || !({SalesDateColumn, TotalAmountColumn, CustomerIdColumn} <= sales.value.columns)
    ensures r.Failed? ==> r.missing == if TotalAmountColumn !in sales.value.columns then TotalAmountColumn else CustomerIdColumn
    ensures r.Computed? ==> r.figures == SalesFigures(Filter(sales.value.rows, SaleDate, w))
  {
    if sales.None? || |sales.value.rows| == 0 then Skipped(EmptyInput)
    else if SalesDateColumn !in sales.value.columns then Skipped(MissingColumn)
    else if TotalAmountColumn !in sales.value.columns then Failed(TotalAmountColumn)
    else if CustomerIdColumn !in sales.value.columns then Failed(CustomerIdColumn)
    else Computed(SalesFigures(Filter(sales.value.rows, SaleDate, w)))
  }

  /** Total revenue is member revenue plus non-member revenue. */
  lemma {:induction false} TotalIsMemberPlusGuest(f: seq<SalesRow>)
    ensures SalesFigures(f).totalRevenue == SalesFigures(f).memberSales + SumWhere(f, SaleAmount, IsGuestSale)
  {
    SumPartition(f, SaleAmount, IsMemberSale, IsGuestSale);
  }

  /** Daily revenue has one key per distinct sales date and holds that date's
      sum; a date with no sale has no key. */
  lemma {:induction false} DailyRevenueByDate(f: seq<SalesRow>, d: Date)
    ensures d in SalesFigures(f).dailyRevenue <==> exists s :: s in f && s.salesDate == d
    ensures d in SalesFigures(f).dailyRevenue ==> SalesFigures(f).dailyRevenue[d] == SumOfKey(f, SaleDate, SaleAmount, d)
    ensures d !in SalesFigures(f).dailyRevenue ==> SumOfKey(f, SaleDate, SaleAmount, d) == 0
  {
    GroupSumPerKey(f, SaleDate, SaleAmount, d);
    var days := SalesFigures(f).dailyRevenue;
    if d in days {
      assert d in set s | s in f :: SaleDate(s);
      var s :| s in f && SaleDate(s) == d;
    }
  }

  /** The daily revenues add up to the total revenue. */
  lemma DailyRevenueAddsUp(f: seq<SalesRow>)
    ensures SumValues(SalesFigures(f).dailyRevenue) == SalesFigures(f).totalRevenue
  {
    GroupSumTotal(f, SaleDate, SaleAmount);
  }

  /** The daily revenue of a computed group is keyed by exactly the dates of
      the input's sales that fall in the window. */
  lemma DailyRevenueWithinWindow(sales: Option<SalesFrame>, w: Window, d: Date)
    requires CalcSalesKpi(sales, w).Computed?
    ensures d in CalcSalesKpi(sales, w).figures.dailyRevenue
        <==> InWindow(d, w) && exists s :: s in sales.value.rows && s.salesDate == d
  {
    var rows := sales.value.rows;
    var f := Filter(rows, SaleDate, w);
    DailyRevenueByDate(f, d);
    forall s: SalesRow | s.salesDate == d
      ensures s in f <==> s in rows && InWindow(d, w)
    {
      FilterKeepsExactly(rows, SaleDate, w, s);
    }
  }
}
