/**
 * `generateMerchantInsights` (insights.js): checks its parameters, looks up
 * the merchant, then computes the facets one after another inside a single
 * `try`. An exception stops the sequence; the facets computed so far keep
 * their values and the rest keep their defaults. The facets are then
 * assembled with a summary.
 */
module MerchantInsights {
  import opened Wrappers
  import opened JsValues
  import opened Dates
  import opened Orders
  import opened Sales
  import opened Items
  import opened Operations
  import opened Cuisine

  /** The two dataset slots the composer reads. */
  datatype Datasets = Datasets(merchants: Collection, updatedOrders: Collection)

  /** `rows.find(m => m.merchant_id === merchantId) || {}`: a null row met before the match throws. */
  function FindIn(rows: seq<Row>, merchantId: string): (r: Result<Record, JsError>)
    ensures r.Ok? ==> r.value == map[] || FromMerchant(r.value, merchantId)
    ensures r.Threw? ==> r.error == TypeError
  {
    if |rows| == 0 then Ok(map[])
    else match rows[0]
      case NullRow => Threw(TypeError)
      case Obj(m) => if FromMerchant(m, merchantId) then Ok(m) else FindIn(rows[1..], merchantId)
  }

  /** `merchants?.find(...) || {}`: an absent slot gives `{}`, one that is not an array throws. */
  function MerchantOf(merchantId: string, merchants: Collection): Result<Record, JsError> {
    match merchants
    case Missing => Ok(map[])
    case NotArray => Threw(TypeError)
    case Array(rows) => FindIn(rows, merchantId)
  }

  /** `updated_orders?.filter(tx => tx.merchant_id === merchantId)?.length || 0`. */
  function OrderCountOf(merchantId: string, orders: Collection): (r: Result<nat, JsError>)
    ensures orders.Array? ==> (r.Threw? <==> NullRow in orders.rows)
  {
    match orders
    case Missing => Ok(0)
    case NotArray => Threw(TypeError)
    case Array(rows) =>
      match Records(rows)
      case None => Threw(TypeError)
      case Some(rs) => Ok(|MerchantRecords(rs, merchantId)|)
  }

  /** The values the `try` block assigns. */
  datatype Facets = Facets(
    totalSales: Num,
    daily: seq<TrendPoint>,
    weekly: seq<TrendPoint>,
    topItems: seq<TopItem>,
    operations: OperationalMetrics,
    cuisine: seq<CuisineStat>,
    orderCount: nat
  )

  /** The values declared before the `try`. */
  const DefaultFacets := Facets(Fin(0.0), [], [], [], NoMetrics, [], 0)

  /** The `try` block: each step runs only when every earlier step returned. */
  function FacetsOf(merchantId: string, orders: Collection, cal: Calendar): Facets {
    var f0 := DefaultFacets;
    match TotalSales(merchantId, orders)
    case Threw(_) => f0
    case Ok(total) =>
      var f1 := f0.(totalSales := total);
      match SalesTrendOf(merchantId, orders, cal, Daily)
      case Threw(_) => f1
      case Ok(daily) =>
        var f2 := f1.(daily := daily);
        match SalesTrendOf(merchantId, orders, cal, Weekly)
        case Threw(_) => f2
        case Ok(weekly) =>
          var f3 := f2.(weekly := weekly);
          match TopItemsOf(merchantId, orders, 5)
          case Threw(_) => f3
          case Ok(top) =>
            var f4 := f3.(topItems := top);
            match OperationalOf(merchantId, orders, cal)
            case Threw(_) => f4
            case Ok(ops) =>
              var f5 := f4.(operations := ops);
              match CuisinePerformanceOf(merchantId, orders)
              case Threw(_) => f5
              case Ok(cuisine) =>
                var f6 := f5.(cuisine := cuisine);
                match OrderCountOf(merchantId, orders)
                case Threw(_) => f6
                case Ok(n) => f6.(orderCount := n)
  }

  datatype Summary = Summary(totalSales: Num, totalOrders: nat, avgOrderValue: Num, topSellingItem: string)

  datatype Insights = Insights(
    merchantId: string,
    merchantName: string,
    joinDate: string,
    cityId: string,
    summary: Summary,
    operations: OperationalMetrics,
    daily: seq<TrendPoint>,
    weekly: seq<TrendPoint>,
    topItems: seq<TopItem>,
    cuisineInsights: seq<CuisineStat>
  )

  /** `info[f] || fallback`. */
  function FieldOr(info: Record, f: string, fallback: string): string {
    if Has(info, f) then info[f] else fallback
  }

  /** `orderCount > 0 ? parseFloat((totalSales / orderCount).toFixed(2)) : 0`. */
  function AverageOrderValue(totalSales: Num, orderCount: nat): Num {
    if orderCount > 0 then Fixed2(DivBy(totalSales, orderCount)) else Fin(0.0)
  }

  /** The returned object. */
  function Assemble(merchantId: string, info: Record, f: Facets): Insights {
    Insights(
      merchantId,
      FieldOr(info, "merchant_name", "Unknown Merchant"),
      FieldOr(info, "join_date", "Unknown"),
      FieldOr(info, "city_id", "Unknown"),
      Summary(
        Fixed2(f.totalSales),
        f.orderCount,
        AverageOrderValue(f.totalSales, f.orderCount),
        if |f.topItems| > 0 then f.topItems[0].name else "N/A"),
      f.operations,
      f.daily,
      f.weekly,
      f.topItems,
      f.cuisine)
  }

  /**
   * What `generateMerchantInsights(merchantId, datasets)` returns or throws;
   * None stands for absent datasets and "" for a falsy merchant id.
   */
  function InsightsOf(merchantId: string, datasets: Option<Datasets>, cal: Calendar): Result<Insights, JsError> {
    if datasets.None? || merchantId == "" then Threw(MissingParameters)
    else
      match MerchantOf(merchantId, datasets.value.merchants)
      case Threw(e) => Threw(e)
      case Ok(info) => Ok(Assemble(merchantId, info, FacetsOf(merchantId, datasets.value.updatedOrders, cal)))
  }

  /** The `try` block, step by step; `failed` records that an exception reached the `catch`. */
  method CollectFacets(merchantId: string, orders: Collection, cal: Calendar) returns (f: Facets)
    ensures f == FacetsOf(merchantId, orders, cal)
  {
    var totalSales := Fin(0.0);
    var dailySalesTrend: seq<TrendPoint> := [];
    var weeklySalesTrend: seq<TrendPoint> := [];
    var topItemsList: seq<TopItem> := [];
    var operationalMetrics := NoMetrics;
    var cuisinePerformance: seq<CuisineStat> := [];
    var orderCount: nat := 0;
    var failed := false;

    var total := TotalSales(merchantId, orders);
    if total.Threw? { failed := true; } else { totalSales := total.value; }
    if !failed {
      var daily := SalesTrend(merchantId, orders, cal, Daily);
      if daily.Threw? { failed := true; } else { dailySalesTrend := daily.value; }
    }
    if !failed {
      var weekly := SalesTrend(merchantId, orders, cal, Weekly);
      if weekly.Threw? { failed := true; } else { weeklySalesTrend := weekly.value; }
    }
    if !failed {
      var top := TopItems(merchantId, orders, 5);
      if top.Threw? { failed := true; } else { topItemsList := top.value; }
    }
    if !failed {
      var ops := OperationalInsights(merchantId, orders, cal);
      if ops.Threw? { failed := true; } else { operationalMetrics := ops.value; }
    }
    if !failed {
      var cuisine := CuisinePerformance(merchantId, orders);
      if cuisine.Threw? { failed := true; } else { cuisinePerformance := cuisine.value; }
    }
    if !failed {
      var count := OrderCountOf(merchantId, orders);
      if count.Ok? { orderCount := count.value; }
    }
    f := Facets(totalSales, dailySalesTrend, weeklySalesTrend, topItemsList, operationalMetrics, cuisinePerformance, orderCount);
  }

  /** `generateMerchantInsights`. */
  method GenerateMerchantInsights(merchantId: string, datasets: Option<Datasets>, cal: Calendar)
    returns (r: Result<Insights, JsError>)
    ensures r == InsightsOf(merchantId, datasets, cal)
  {
    if datasets.None? || merchantId == "" {
      return Threw(MissingParameters);
    }
    var merchantInfo := MerchantOf(merchantId, datasets.value.merchants);
    if merchantInfo.Threw? {
      return Threw(merchantInfo.error);
    }
    var facets := CollectFacets(merchantId, datasets.value.updatedOrders, cal);
    r := Ok(Assemble(merchantId, merchantInfo.value, facets));
  }

  // ---------------------------------------------------------------------------
  // Properties

  /** The row `find` stops at: the first null row or matching merchant, if any. */
  predicate MatchesAt(rows: seq<Row>, i: int, merchantId: string)
    requires 0 <= i < |rows|
  {
    rows[i].Obj? && FromMerchant(rows[i].fields, merchantId)
  }

  /** A null row before any record of the merchant makes the lookup throw. */
  lemma {:induction false} NullBeforeMatchThrows(rows: seq<Row>, merchantId: string, i: nat)
    requires i < |rows| && rows[i] == NullRow
    requires forall j :: 0 <= j < i ==> !MatchesAt(rows, j, merchantId)
    ensures FindIn(rows, merchantId).Threw?
  {
    if i > 0 {
      assert !MatchesAt(rows, 0, merchantId);
      assert rows[1..][i - 1] == NullRow;
      forall j | 0 <= j < i - 1 ensures !MatchesAt(rows[1..], j, merchantId) {
        assert !MatchesAt(rows, j + 1, merchantId);
      }
      NullBeforeMatchThrows(rows[1..], merchantId, i - 1);
    }
  }

  /** When the lookup throws, a null row comes before any record of the merchant. */
  lemma {:induction false} ThrowHasNullRow(rows: seq<Row>, merchantId: string)
    requires FindIn(rows, merchantId).Threw?
    ensures exists i :: 0 <= i < |rows| && rows[i] == NullRow && forall j :: 0 <= j < i ==> !MatchesAt(rows, j, merchantId)
  {
    if rows[0] != NullRow {
      ThrowHasNullRow(rows[1..], merchantId);
      var i :| 0 <= i < |rows[1..]| && rows[1..][i] == NullRow && forall j :: 0 <= j < i ==> !MatchesAt(rows[1..], j, merchantId);
      forall j | 0 <= j < i + 1 ensures !MatchesAt(rows, j, merchantId) {
        if j > 0 {
          assert !MatchesAt(rows[1..], j - 1, merchantId);
        }
      }
      assert rows[i + 1] == NullRow;
    }
  }

  /**
   * A record the lookup returns is the merchant's first, and every row before
   * it is a record of another merchant; `{}` means every row is one.
   */
  lemma {:induction false} FoundIsFirst(rows: seq<Row>, merchantId: string)
    requires FindIn(rows, merchantId).Ok?
    ensures FindIn(rows, merchantId).value != map[] ==>
      exists i :: 0 <= i < |rows| && rows[i] == Obj(FindIn(rows, merchantId).value) && MatchesAt(rows, i, merchantId) &&
        forall j :: 0 <= j < i ==> rows[j].Obj? && !MatchesAt(rows, j, merchantId)
    ensures FindIn(rows, merchantId).value == map[] ==> forall j :: 0 <= j < |rows| ==> rows[j].Obj? && !MatchesAt(rows, j, merchantId)
  {
    if |rows| > 0 {
      var r := FindIn(rows, merchantId);
      if MatchesAt(rows, 0, merchantId) {
        assert r == Ok(rows[0].fields);
        assert "merchant_id" in r.value;
      } else {
        FoundIsFirst(rows[1..], merchantId);
        if r.value != map[] {
          var i :| 0 <= i < |rows[1..]| && rows[1..][i] == Obj(r.value) && MatchesAt(rows[1..], i, merchantId) &&
            forall j :: 0 <= j < i ==> rows[1..][j].Obj? && !MatchesAt(rows[1..], j, merchantId);
          assert rows[i + 1] == Obj(r.value);
          forall j | 0 <= j < i + 1 ensures rows[j].Obj? && !MatchesAt(rows, j, merchantId) {
            if j > 0 {
              assert rows[1..][j - 1].Obj? && !MatchesAt(rows[1..], j - 1, merchantId);
            }
          }
        } else {
          forall j | 0 <= j < |rows| ensures rows[j].Obj? && !MatchesAt(rows, j, merchantId) {
            if j > 0 {
              assert rows[1..][j - 1].Obj? && !MatchesAt(rows[1..], j - 1, merchantId);
            }
          }
        }
      }
    }
  }

  /** The lookup throws exactly when a null row comes before the first record of the merchant. */
  lemma FindInThrows(rows: seq<Row>, merchantId: string)
    ensures FindIn(rows, merchantId).Threw? <==>
      exists i :: 0 <= i < |rows| && rows[i] == NullRow && forall j :: 0 <= j < i ==> !MatchesAt(rows, j, merchantId)
  {
    if FindIn(rows, merchantId).Threw? {
      ThrowHasNullRow(rows, merchantId);
    }
    forall i | 0 <= i < |rows| && rows[i] == NullRow && (forall j :: 0 <= j < i ==> !MatchesAt(rows, j, merchantId))
      ensures FindIn(rows, merchantId).Threw?
    {
      NullBeforeMatchThrows(rows, merchantId, i);
    }
  }

  /**
   * The composer throws exactly when the merchant id or the datasets are
   * missing, or when the merchant lookup throws: when `merchants` is neither
   * an array nor absent, or when it holds a null row before the merchant's record.
   */
  lemma InsightsThrow(merchantId: string, datasets: Option<Datasets>, cal: Calendar)
    ensures InsightsOf(merchantId, datasets, cal).Threw? <==>
      || datasets.None?
      || merchantId == ""
      || datasets.value.merchants.NotArray?
      || (datasets.value.merchants.Array? &&
          exists i :: 0 <= i < |datasets.value.merchants.rows| && datasets.value.merchants.rows[i] == NullRow &&
            forall j :: 0 <= j < i ==> !MatchesAt(datasets.value.merchants.rows, j, merchantId))
    ensures InsightsOf(merchantId, datasets, cal) == Threw(MissingParameters) <==> datasets.None? || merchantId == ""
  {
    if datasets.Some? && datasets.value.merchants.Array? {
      FindInThrows(datasets.value.merchants.rows, merchantId);
    }
  }

  /**
   * The `try` never leaves a partial result: when `updated_orders` is an
   * array without null rows every facet is computed, and otherwise every
   * facet keeps its default (a null row makes the first step throw; a slot
   * that is absent or not an array gives the defaults, the order count included).
   */
  lemma FacetsAllOrNothing(merchantId: string, orders: Collection, cal: Calendar)
    ensures !orders.Array? || NullRow in orders.rows ==> FacetsOf(merchantId, orders, cal) == DefaultFacets
    ensures orders.Array? && NullRow !in orders.rows ==>
      var rs := Records(orders.rows).value;
      FacetsOf(merchantId, orders, cal) == Facets(
        SalesOf(rs, merchantId),
        TrendOf(rs, merchantId, Daily, cal),
        TrendOf(rs, merchantId, Weekly, cal),
        TopItemsFrom(rs, merchantId, 5),
        MetricsOf(MerchantRecords(rs, merchantId), cal),
        CuisineReport(rs, merchantId),
        |MerchantRecords(rs, merchantId)|)
  {
  }

  /**
   * Over an array of orders without null rows, the summary's order count is
   * the merchant's number of records, the same as the operational metrics'
   * count, and the average order value is zero exactly when there are none.
   */
  lemma SummaryCounts(merchantId: string, d: Datasets, cal: Calendar)
    requires merchantId != "" && InsightsOf(merchantId, Some(d), cal).Ok?
    requires d.updatedOrders.Array? && NullRow !in d.updatedOrders.rows
    ensures var ins := InsightsOf(merchantId, Some(d), cal).value;
      var rs := Records(d.updatedOrders.rows).value;
      && ins.summary.totalOrders == |MerchantRecords(rs, merchantId)| == ins.operations.orderCount
      && ins.summary.totalSales == Fixed2(SalesOf(rs, merchantId))
      && (ins.summary.totalOrders == 0 ==> ins.summary.avgOrderValue == Fin(0.0))
      && (ins.summary.totalOrders > 0 ==>
            ins.summary.avgOrderValue == Fixed2(DivBy(SalesOf(rs, merchantId), ins.summary.totalOrders)))
  {
    FacetsAllOrNothing(merchantId, d.updatedOrders, cal);
  }

  /**
   * When `merchants` is absent, or an array of records none of which is the
   * merchant's, the lookup gives `{}`: the call returns, with the merchant's
   * name, join date and city taken from the fallbacks.
   */
  lemma MerchantFallbacks(merchantId: string, d: Datasets, cal: Calendar)
    requires merchantId != ""
    requires || d.merchants.Missing?
             || (d.merchants.Array? &&
                 forall j :: 0 <= j < |d.merchants.rows| ==> d.merchants.rows[j].Obj? && !MatchesAt(d.merchants.rows, j, merchantId))
    ensures InsightsOf(merchantId, Some(d), cal).Ok?
    ensures var ins := InsightsOf(merchantId, Some(d), cal).value;
      && ins.merchantId == merchantId
      && ins.merchantName == "Unknown Merchant"
      && ins.joinDate == "Unknown"
      && ins.cityId == "Unknown"
  {
    if d.merchants.Array? {
      FindInNone(d.merchants.rows, merchantId);
    }
  }

  /** A lookup over records none of which is the merchant's gives `{}`. */
  lemma {:induction false} FindInNone(rows: seq<Row>, merchantId: string)
    requires forall j :: 0 <= j < |rows| ==> rows[j].Obj? && !MatchesAt(rows, j, merchantId)
    ensures FindIn(rows, merchantId) == Ok(map[])
  {
    if |rows| > 0 {
      assert rows[0].Obj? && !MatchesAt(rows, 0, merchantId);
      forall j | 0 <= j < |rows[1..]| ensures rows[1..][j].Obj? && !MatchesAt(rows[1..], j, merchantId) {
        assert rows[1..][j] == rows[j + 1];
        assert rows[j + 1].Obj? && !MatchesAt(rows, j + 1, merchantId);
      }
      FindInNone(rows[1..], merchantId);
    }
  }

  /**
   * Over an array of orders without null rows, the top-selling item is named
   * after the merchant's most sold item: no item sold more often, and "N/A"
   * only when nothing was sold.
   */
  lemma TopSellingItemIsBest(merchantId: string, d: Datasets, cal: Calendar)
    requires merchantId != "" && InsightsOf(merchantId, Some(d), cal).Ok?
    requires d.updatedOrders.Array? && NullRow !in d.updatedOrders.rows
    ensures var ins := InsightsOf(merchantId, Some(d), cal).value;
      var rs := Records(d.updatedOrders.rows).value;
      && (|SoldIds(rs, merchantId)| == 0 <==> ins.topItems == [])
      && (|SoldIds(rs, merchantId)| == 0 ==> ins.summary.topSellingItem == "N/A")
      && (ins.topItems != [] ==>
            && ins.summary.topSellingItem == ins.topItems[0].name
            && (forall id :: Sold(rs, merchantId, id) <= ins.topItems[0].count))
  {
    var rs := Records(d.updatedOrders.rows).value;
    FacetsAllOrNothing(merchantId, d.updatedOrders, cal);
    var ts := TopItemsFrom(rs, merchantId, 5);
    TopItemsCount(rs, merchantId, 5);
    if ts != [] {
      TopItemsBest(rs, merchantId, 5);
      TopItemsCorrect(rs, merchantId, 5);
      forall id ensures Sold(rs, merchantId, id) <= ts[0].count {
        if Sold(rs, merchantId, id) > 0 {
          if k :| 0 <= k < |ts| && ts[k].id == id {
            assert ts[k] in ts;
          }
        }
      }
    }
  }
}
