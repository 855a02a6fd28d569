/** `calc_purchase_kpis`: total procurement cost and cost per item. */
module Purchases {
  import opened Optional
  import opened Dates
  import opened Frames
  import opened Filtering
  import opened Aggregation

  datatype PurchaseColumn = PurchaseDateColumn | ItemNameColumn | QuantityColumn | UnitPriceColumn

  datatype PurchaseRow = PurchaseRow(purchaseDate: Date, itemName: string, quantity: int, unitPrice: int)

  type PurchaseFrame = Frame<PurchaseColumn, PurchaseRow>

  datatype PurchaseKpi = PurchaseKpi(totalPurchaseAmount: int, productPurchaseAmount: map<string, int>)

  function PurchaseDate(p: PurchaseRow): Date { p.purchaseDate }

  function ItemName(p: PurchaseRow): string { p.itemName }

  /** The cost of one purchase: quantity times unit price. */
  function Cost(p: PurchaseRow): int { p.quantity * p.unitPrice }

  /** The figures of the purchase KPI group, computed on the rows already
      restricted to the window. */
  function PurchaseFigures(f: seq<PurchaseRow>): PurchaseKpi {
    PurchaseKpi(Sum(f, Cost), GroupSum(f, ItemName, Cost))
  }

  /** The purchase KPI group: the early-return validations, then the figures
      of the window's rows. The quantity and unit price columns are read first,
      the item name column second; the first one missing fails the group. */
  function CalcPurchaseKpis(purchases: Option<PurchaseFrame>, w: Window): (r: Kpi<PurchaseKpi, PurchaseColumn>)
    ensures r == Skipped(EmptyInput) <==> purchases.None? || |purchases.value.rows| == 0
    ensures r == Skipped(MissingColumn)
        <==> purchases.Some? && |purchases.value.rows| > 0 && PurchaseDateColumn !in purchases.value.columns
    ensures r.Failed?
        <==> && purchases.Some? && |purchases.value.rows| > 0 && PurchaseDateColumn in purchases.value.columns
             && !({QuantityColumn, UnitPriceColumn, ItemNameColumn} <= purchases.value.columns)
    ensures r.IsEmptyDict()
        <==> || purchases.None? || |purchases.value.rows| == 0
             || !({PurchaseDateColumn, QuantityColumn, UnitPriceColumn, ItemNameColumn} <= purchases.value.columns)
    ensures r.Failed? ==> r.missing !in purchases.value.columns
    ensures r.Failed? && r.missing == ItemNameColumn
        ==> QuantityColumn in purchases.value.columns && UnitPriceColumn in purchases.value.columns
    ensures r.Failed? && r.missing == UnitPriceColumn ==> QuantityColumn in purchases.value.columns
    ensures r.Computed? ==> r.figures == PurchaseFigures(Filter(purchases.value.rows, PurchaseDate, w))
  {
    if purchases.None? || |purchases.value.rows| == 0 then Skipped(EmptyInput)
    else if PurchaseDateColumn !in purchases.value.columns then Skipped(MissingColumn)
    else if QuantityColumn !in purchases.value.columns then Failed(QuantityColumn)
    else if UnitPriceColumn !in purchases.value.columns then Failed(UnitPriceColumn)
    else if ItemNameColumn !in purchases.value.columns then Failed(ItemNameColumn)
    else Computed(PurchaseFigures(Filter(purchases.value.rows, PurchaseDate, w)))
  }

  /** The cost per item has one key per item purchased, holding that item's
      cost; an item never purchased has no key. */
  lemma ProductAmountByItem(f: seq<PurchaseRow>, item: string)
    ensures item in PurchaseFigures(f).productPurchaseAmount <==> exists p :: p in f && p.itemName == item
    ensures item in PurchaseFigures(f).productPurchaseAmount
        ==> PurchaseFigures(f).productPurchaseAmount[item] == SumOfKey(f, ItemName, Cost, item)
    ensures item !in PurchaseFigures(f).productPurchaseAmount ==> SumOfKey(f, ItemName, Cost, item) == 0
  {
    GroupSumPerKey(f, ItemName, Cost, item);
    if item in PurchaseFigures(f).productPurchaseAmount {
      assert item in set p | p in f :: ItemName(p);
      var p :| p in f && ItemName(p) == item;
    }
  }

  /** The per-item costs add up to the total cost. */
  lemma ProductAmountsAddUp(f: seq<PurchaseRow>)
    ensures SumValues(PurchaseFigures(f).productPurchaseAmount) == PurchaseFigures(f).totalPurchaseAmount
  {
    GroupSumTotal(f, ItemName, Cost);
  }

  /** Purchases outside the window contribute nothing: an item is a key of a
      computed group iff some purchase of it falls in the window. */
  lemma ProductAmountWithinWindow(purchases: Option<PurchaseFrame>, w: Window, item: string)
    requires CalcPurchaseKpis(purchases, w).Computed?
    ensures item in CalcPurchaseKpis(purchases, w).figures.productPurchaseAmount
        <==> exists p :: p in purchases.value.rows && p.itemName == item && InWindow(p.purchaseDate, w)
  {
    var rows := purchases.value.rows;
    var f := Filter(rows, PurchaseDate, w);
    ProductAmountByItem(f, item);
    forall p: PurchaseRow
      ensures p in f <==> p in rows && InWindow(p.purchaseDate, w)
    {
      FilterKeepsExactly(rows, PurchaseDate, w, p);
    }
  }
}
