/** `calc_customer_kpis`: repeat customers and mean purchase frequency, read
    from the sales table alone. */
module Customers {
  import opened Optional
  import opened Dates
  import opened Frames
  import opened Filtering
  import opened Aggregation
  import opened Sales

  /** A non-negative rational `num / den`; the mean purchase frequency. */
  datatype Ratio = Ratio(num: nat, den: nat)

  datatype CustomerKpi = CustomerKpi(repeatCustomers: nat, averagePurchaseFrequency: Ratio)

  /** The distinct customer ids present in the rows (missing ids excluded). */
  function CustomersOf(rows: seq<SalesRow>): set<CustomerId> {
    set s | s in rows && s.customerId.Some? :: s.customerId.value
  }

  /** The distinct dates on which customer `c` bought. */
  function VisitDates(rows: seq<SalesRow>, c: CustomerId): set<Date> {
    set s | s in rows && s.customerId == Some(c) :: s.salesDate
  }

  /** The distinct (customer, date) pairs of the rows. */
  function VisitPairs(rows: seq<SalesRow>): set<(CustomerId, Date)> {
    set s | s in rows && s.customerId.Some? :: (s.customerId.value, s.salesDate)
  }

  function AddVisit(visits: map<CustomerId, set<Date>>, c: CustomerId, d: Date): map<CustomerId, set<Date>> {
    visits[c := (if c in visits then visits[c] else {}) + {d}]
  }

  /** `groupby("customer_id")["sales_date"]` collected as sets: one group per
      present customer id (rows without one are dropped), holding the distinct
      dates of that customer's sales (lemma DistinctDatesGroups). */
  function DistinctDates(rows: seq<SalesRow>): (visits: map<CustomerId, set<Date>>)
  {
    if rows == [] then map[]
    else
      var rest := DistinctDates(rows[1..]);
      match rows[0].customerId
      case None => rest
      case Some(c) => AddVisit(rest, c, rows[0].salesDate)
  }

  /** The groups are exactly the present customers, and each holds exactly
      the dates of that customer's sales. */
  lemma {:induction false} DistinctDatesGroups(rows: seq<SalesRow>)
    ensures DistinctDates(rows).Keys == CustomersOf(rows)
    ensures forall c | c in DistinctDates(rows) :: DistinctDates(rows)[c] == VisitDates(rows, c)
  {
    if rows != [] {
      DistinctDatesGroups(rows[1..]);
      assert rows == [rows[0]] + rows[1..];
      assert forall s :: s in rows <==> s == rows[0] || s in rows[1..];
      match rows[0].customerId
      case None =>
        assert CustomersOf(rows) == CustomersOf(rows[1..]);
        assert forall c :: VisitDates(rows, c) == VisitDates(rows[1..], c);
      case Some(c) =>
        assert CustomersOf(rows) == CustomersOf(rows[1..]) + {c};
        assert VisitDates(rows, c) == VisitDates(rows[1..], c) + {rows[0].salesDate};
        assert forall c' | c' != c :: VisitDates(rows, c') == VisitDates(rows[1..], c');
    }
  }

  /** `.nunique()` per group: the number of distinct dates of each customer. */
  function Nunique(visits: map<CustomerId, set<Date>>): map<CustomerId, int> {
    map c | c in visits :: |visits[c]|
  }

  /** The figures of the customer KPI group, computed on the rows already
      restricted to the window. The mean's numerator, the sum over customers of
      their distinct-date counts, is the number of distinct (customer, date)
      pairs (lemma VisitPairsAreSumOfCounts). */
  function CustomerFigures(f: seq<SalesRow>): CustomerKpi {
    var visits := DistinctDates(f);
    CustomerKpi(
      if |f| == 0 then 0 else |set c | c in visits && |visits[c]| > 1|,
      if |f| == 0 || |CustomersOf(f)| == 0 then Ratio(0, 1) else Ratio(|VisitPairs(f)|, |visits|))
  }

  /** The customer KPI group: the early-return validations (both the customer
      id and the date column are required), then the figures of the window's
      rows. No column is read beyond those two, so the group never fails. */
  function CalcCustomerKpis(sales: Option<SalesFrame>, w: Window): (r: Kpi<CustomerKpi, SalesColumn>)
    ensures r == Skipped(EmptyInput) <==> sales.None? || |sales.value.rows| == 0
    ensures r == Skipped(MissingColumn)
        <==> && sales.Some? && |sales.value.rows| > 0
             && !(CustomerIdColumn in sales.value.columns && SalesDateColumn in sales.value.columns)
    ensures !r.Failed?
    ensures r.IsEmptyDict()
        <==> || sales.None? || |sales.value.rows| == 0
             || !({CustomerIdColumn, SalesDateColumn} <= sales.value.columns)
    ensures r.Computed? ==> r.figures == CustomerFigures(Filter(sales.value.rows, SaleDate, w))
  {
    if sales.None? || |sales.value.rows| == 0 then Skipped(EmptyInput)
    else if CustomerIdColumn !in sales.value.columns || SalesDateColumn !in sales.value.columns then Skipped(MissingColumn)
    else Computed(CustomerFigures(Filter(sales.value.rows, SaleDate, w)))
  }

  /** A repeat customer is one with sales on more than one distinct date; there
      are none in an empty window and never more than there are customers. */
  lemma RepeatCustomersCounted(f: seq<SalesRow>)
    ensures CustomerFigures(f).repeatCustomers == |set c | c in CustomersOf(f) && |VisitDates(f, c)| > 1|
    ensures CustomerFigures(f).repeatCustomers <= |CustomersOf(f)|
    ensures |f| == 0 ==> CustomerFigures(f).repeatCustomers == 0
  {
    var visits := DistinctDates(f);
    DistinctDatesGroups(f);
    var repeaters := set c | c in CustomersOf(f) && |VisitDates(f, c)| > 1;
    assert (set c | c in visits && |visits[c]| > 1) == repeaters;
    assert repeaters <= CustomersOf(f);
    SubsetSize(repeaters, CustomersOf(f));
    if |f| == 0 {
      assert CustomersOf(f) == {};
    }
  }

  lemma SubsetSize<T>(a: set<T>, b: set<T>)
    requires a <= b
    ensures |a| <= |b|
  {
    assert b == a + (b - a);
  }

  /** A sale of customer `c` on date `d` adds the pair `(c, d)`; a sale with no
      customer id adds nothing. */
  lemma VisitPairsStep(rows: seq<SalesRow>)
    requires rows != []
    ensures VisitPairs(rows) == VisitPairs(rows[1..]) +
      (if rows[0].customerId.Some? then {(rows[0].customerId.value, rows[0].salesDate)} else {})
  {
    assert rows == [rows[0]] + rows[1..];
    assert forall s :: s in rows <==> s == rows[0] || s in rows[1..];
  }

  /** A pair is already counted iff its date is already in its customer's group. */
  lemma VisitPairInGroups(rows: seq<SalesRow>, c: CustomerId, d: Date)
    ensures (c, d) in VisitPairs(rows) <==> c in DistinctDates(rows) && d in DistinctDates(rows)[c]
  {
    var g := DistinctDates(rows);
    DistinctDatesGroups(rows);
    if (c, d) in VisitPairs(rows) {
      var s :| s in rows && s.customerId.Some? && (s.customerId.value, s.salesDate) == (c, d);
      assert c in CustomersOf(rows);
      assert d in VisitDates(rows, c);
    }
    if c in g && d in g[c] {
      assert d in VisitDates(rows, c);
      var s :| s in rows && s.customerId == Some(c) && s.salesDate == d;
    }
  }

  /** Adding a new date to a customer's group raises that customer's count by one. */
  lemma NuniqueAddVisit(g: map<CustomerId, set<Date>>, c: CustomerId, d: Date)
    requires !(c in g && d in g[c])
    ensures Nunique(AddVisit(g, c, d)) == Accumulate(Nunique(g), c, 1)
  {
    if c in g {
      assert |g[c] + {d}| == |g[c]| + 1;
    }
  }

  /** One more sale either leaves the groups alone (no customer id) or adds
      its date to its customer's group. */
  lemma DistinctDatesStep(rows: seq<SalesRow>)
    requires rows != []
    ensures DistinctDates(rows) == match rows[0].customerId
      case None => DistinctDates(rows[1..])
      case Some(c) => AddVisit(DistinctDates(rows[1..]), c, rows[0].salesDate)
  {
  }

  /** The number of distinct (customer, date) pairs is the sum over customers
      of their distinct-date counts. */
  lemma {:induction false} VisitPairsAreSumOfCounts(rows: seq<SalesRow>)
    ensures |VisitPairs(rows)| == SumValues(Nunique(DistinctDates(rows)))
  {
    if rows != [] {
      var rest := rows[1..];
      VisitPairsAreSumOfCounts(rest);
      VisitPairsStep(rows);
      DistinctDatesStep(rows);
      var g := DistinctDates(rest);
      var pairs := VisitPairs(rest);
      if rows[0].customerId.Some? {
        var c, d := rows[0].customerId.value, rows[0].salesDate;
        VisitPairInGroups(rest, c, d);
        if (c, d) in pairs {
          assert g[c] + {d} == g[c];
          assert AddVisit(g, c, d) == g;
          assert pairs + {(c, d)} == pairs;
        } else {
          NuniqueAddVisit(g, c, d);
          SumValuesAccumulate(Nunique(g), c, 1);
          assert |pairs + {(c, d)}| == |pairs| + 1;
        }
      }
    }
  }

  /** The mean purchase frequency is zero when there are no customers and
      otherwise the sum of each customer's distinct-date count over the number
      of customers, which is at least one. */
  lemma AverageFrequencyIsMean(f: seq<SalesRow>)
    ensures CustomerFigures(f).averagePurchaseFrequency.den >= 1
    ensures CustomersOf(f) == {} ==> CustomerFigures(f).averagePurchaseFrequency == Ratio(0, 1)
    ensures CustomersOf(f) != {} ==>
      var a := CustomerFigures(f).averagePurchaseFrequency;
      && a.den == |CustomersOf(f)|
      && a.num == SumValues(map c | c in CustomersOf(f) :: |VisitDates(f, c)|)
      && a.num >= a.den
  {
    var visits := DistinctDates(f);
    DistinctDatesGroups(f);
    if CustomersOf(f) != {} {
      assert |f| > 0;
      VisitPairsAreSumOfCounts(f);
      assert Nunique(visits) == map c | c in CustomersOf(f) :: |VisitDates(f, c)|;
      forall c | c in Nunique(visits)
        ensures Nunique(visits)[c] >= 1
      {
        var s :| s in f && s.customerId == Some(c);
        assert s.salesDate in visits[c];
      }
      SumValuesAtLeastSize(Nunique(visits));
      assert |Nunique(visits)| == |visits| by {
        assert Nunique(visits).Keys == visits.Keys;
      }
    }
  }
}
