/**
 * `getCuisinePerformance` (insights.js): map every item id of the whole
 * dataset to its cuisine tag (the last record wins), count the merchant's
 * item sales per cuisine, and list the cuisines by descending count with
 * each one's share of all counted sales in percent, to cents.
 */
module Cuisine {
  import opened Wrappers
  import opened JsValues
  import opened Orders
  import opened AssocList
  import opened StableSort
  import opened Buckets

  /** `item.cuisine_tag || 'Uncategorized'`. */
  function Tag(r: Record): string {
    if Has(r, "cuisine_tag") then r["cuisine_tag"] else "Uncategorized"
  }

  /** One iteration of the first `forEach`: records without an item id are skipped. */
  function MapStep(m: seq<(string, string)>, r: Record): seq<(string, string)> {
    if Has(r, "item_id") then Put(m, r["item_id"], Tag(r)) else m
  }

  /** `itemCuisineMap` after the walk over all records, of every merchant. */
  function CuisineMap(rs: seq<Record>): seq<(string, string)> {
    if |rs| == 0 then [] else MapStep(CuisineMap(rs[..|rs| - 1]), rs[|rs| - 1])
  }

  /** `itemCuisineMap[id] || 'Uncategorized'`. */
  function CuisineOfItem(m: seq<(string, string)>, id: string): string {
    match Lookup(m, id)
    case Some(c) => if c != "" then c else "Uncategorized"
    case None => "Uncategorized"
  }

  /** The cuisine a record is counted under, if the merchant sold an item in it. */
  function CuisineKey(m: seq<(string, string)>, merchantId: string): Record -> Option<string> {
    r => if Sells(r, merchantId) then Some(CuisineOfItem(m, r["item_id"])) else None
  }

  /** `cuisineSales` after the second walk. */
  function CuisineSales(rs: seq<Record>, merchantId: string): seq<(string, Num)> {
    Tally(rs, CuisineKey(CuisineMap(rs), merchantId), One)
  }

  /** The sort key of `(a, b) => b[1] - a[1]`; counts are always finite. */
  function CountValue(e: (string, Num)): real {
    if e.1.Fin? then e.1.val else 0.0
  }

  datatype CuisineStat = CuisineStat(cuisine: string, count: Num, percentage: Num)

  /** `parseFloat(((count / total) * 100).toFixed(2))`, for a non-zero total. */
  function Percentage(count: Num, total: Num): Num {
    if count.Fin? && total.Fin? && total.val != 0.0 then Fin(Round2(Share(count.val, total.val))) else NaN
  }

  /** `(count / total) * 100`. */
  function Share(count: real, total: real): real
    requires total != 0.0
  {
    count / total * 100.0
  }

  function ToStats(es: seq<(string, Num)>, total: Num): (ss: seq<CuisineStat>)
    ensures |ss| == |es|
    ensures forall i :: 0 <= i < |es| ==> ss[i] == CuisineStat(es[i].0, es[i].1, Percentage(es[i].1, total))
  {
    if |es| == 0 then [] else [CuisineStat(es[0].0, es[0].1, Percentage(es[0].1, total))] + ToStats(es[1..], total)
  }

  /** The report over an array with no null row. */
  function CuisineReport(rs: seq<Record>, merchantId: string): seq<CuisineStat> {
    var sales := CuisineSales(rs, merchantId);
    if |Keys(sales)| == 0 then []
    else ToStats(SortBy(sales, CountValue, GreaterReal), SumValues(sales))
  }

  /** What `getCuisinePerformance(merchantId, updated_orders)` returns or throws. */
  function CuisinePerformanceOf(merchantId: string, orders: Collection): (r: Result<seq<CuisineStat>, JsError>)
    ensures !orders.Array? ==> r == Ok([])
    ensures orders.Array? ==> (r.Threw? <==> NullRow in orders.rows)
  {
    if !orders.Array? then Ok([])
    else
      match Records(orders.rows)
      case None => Threw(TypeError)
      case Some(rs) => Ok(CuisineReport(rs, merchantId))
  }

  /** `getCuisinePerformance`: two walks over the records, then sort and map. */
  method CuisinePerformance(merchantId: string, orders: Collection) returns (r: Result<seq<CuisineStat>, JsError>)
    ensures r == CuisinePerformanceOf(merchantId, orders)
  {
    if !orders.Array? {
      return Ok([]);
    }
    var records := Records(orders.rows);
    if records.None? {
      return Threw(TypeError);
    }
    var rs := records.value;
    var itemCuisineMap := BuildCuisineMap(rs);
    var cuisineSales := CountCuisines(rs, merchantId, itemCuisineMap);
    if |Keys(cuisineSales)| == 0 {
      return Ok([]);
    }
    r := Ok(ToStats(SortBy(cuisineSales, CountValue, GreaterReal), SumValues(cuisineSales)));
  }

  /** The first `forEach`: every record with an item id sets that item's cuisine. */
  method BuildCuisineMap(rs: seq<Record>) returns (itemCuisineMap: seq<(string, string)>)
    ensures itemCuisineMap == CuisineMap(rs)
  {
    itemCuisineMap := [];
    var i := 0;
    while i < |rs|
      invariant 0 <= i <= |rs|
      invariant itemCuisineMap == CuisineMap(rs[..i])
    {
      var item := rs[i];
      assert rs[..i + 1][..i] == rs[..i];
      if Has(item, "item_id") {
        itemCuisineMap := Put(itemCuisineMap, item["item_id"], if Has(item, "cuisine_tag") then item["cuisine_tag"] else "Uncategorized");
      }
      i := i + 1;
    }
    assert rs[..|rs|] == rs;
  }

  /** The second walk: `cuisineSales[cuisine] = (cuisineSales[cuisine] || 0) + 1`. */
  method CountCuisines(rs: seq<Record>, merchantId: string, itemCuisineMap: seq<(string, string)>) returns (cuisineSales: seq<(string, Num)>)
    requires itemCuisineMap == CuisineMap(rs)
    ensures cuisineSales == CuisineSales(rs, merchantId)
  {
    cuisineSales := [];
    var i := 0;
    while i < |rs|
      invariant 0 <= i <= |rs|
      invariant cuisineSales == Tally(rs[..i], CuisineKey(itemCuisineMap, merchantId), One)
    {
      var tx := rs[i];
      TallyNext(rs, i, CuisineKey(itemCuisineMap, merchantId), One);
      if FromMerchant(tx, merchantId) && Has(tx, "item_id") {
        var cuisine := CuisineOfItem(itemCuisineMap, tx["item_id"]);
        assert CuisineKey(itemCuisineMap, merchantId)(tx) == Some(cuisine);
        cuisineSales := Put(cuisineSales, cuisine, Add(OrZero(Lookup(cuisineSales, cuisine)), Fin(1.0)));
      } else {
        assert CuisineKey(itemCuisineMap, merchantId)(tx) == None;
      }
      i := i + 1;
    }
    assert rs[..|rs|] == rs;
  }

  // ---------------------------------------------------------------------------
  // Properties

  /** The tag of the last record that names item `id`, if any. */
  function LastTag(rs: seq<Record>, id: string): Option<string> {
    if |rs| == 0 then None
    else
      var r := rs[|rs| - 1];
      if Has(r, "item_id") && r["item_id"] == id then Some(Tag(r)) else LastTag(rs[..|rs| - 1], id)
  }

  /** Each item is mapped to the tag of the last record that names it, whoever sold it. */
  lemma {:induction false} CuisineMapLookup(rs: seq<Record>, id: string)
    ensures Lookup(CuisineMap(rs), id) == LastTag(rs, id)
  {
    if |rs| > 0 {
      CuisineMapLookup(rs[..|rs| - 1], id);
    }
  }

  /** How many of the merchant's item sales fall in `cuisine`. */
  function CuisineHits(rs: seq<Record>, merchantId: string, cuisine: string): nat {
    Hits(rs, CuisineKey(CuisineMap(rs), merchantId), cuisine)
  }

  /** How many item sales the merchant has. */
  function ItemSales(rs: seq<Record>, merchantId: string): nat {
    Keyed(rs, CuisineKey(CuisineMap(rs), merchantId))
  }

  /** The merchant has an item sale iff some record is one. */
  lemma {:induction false} ItemSalesZero(rs: seq<Record>, key: Record -> Option<string>, merchantId: string)
    requires forall r :: key(r).Some? <==> Sells(r, merchantId)
    ensures Keyed(rs, key) == 0 <==> forall r :: r in rs ==> !Sells(r, merchantId)
  {
    if |rs| > 0 {
      var prefix := rs[..|rs| - 1];
      ItemSalesZero(prefix, key, merchantId);
      assert rs == prefix + [rs[|rs| - 1]];
    }
  }

  /** The report is empty iff the merchant has no record with an item id. */
  lemma ReportEmpty(rs: seq<Record>, merchantId: string)
    ensures CuisineReport(rs, merchantId) == [] <==> forall r :: r in rs ==> !Sells(r, merchantId)
  {
    var key := CuisineKey(CuisineMap(rs), merchantId);
    var sales := CuisineSales(rs, merchantId);
    ItemSalesZero(rs, key, merchantId);
    CountSum(rs, key);
    if |sales| == 0 {
      assert SumValues(sales) == Fin(0.0);
    } else {
      assert |ToStats(SortBy(sales, CountValue, GreaterReal), SumValues(sales))| == |sales|;
      if Keyed(rs, key) == 0 {
        var e := sales[0];
        TallyUnique(rs, key, One);
        EntryLookup(sales, e);
        TallyLookup(rs, key, One, e.0);
        TotalOfOnes(rs, key, e.0);
        HitsWithinKeyed(rs, key, e.0);
      }
    }
  }

  /** A bucket never counts more than all keyed records. */
  lemma {:induction false} HitsWithinKeyed(xs: seq<Record>, key: Record -> Option<string>, k: string)
    ensures Hits(xs, key, k) <= Keyed(xs, key)
  {
    if |xs| > 0 {
      HitsWithinKeyed(xs[..|xs| - 1], key, k);
    }
  }

  /** Each bucket of `cuisineSales` holds the number of the merchant's item sales in its cuisine. */
  lemma SalesEntry(rs: seq<Record>, merchantId: string, e: (string, Num))
    requires e in CuisineSales(rs, merchantId)
    ensures CuisineHits(rs, merchantId, e.0) > 0
    ensures e.1 == Fin(CuisineHits(rs, merchantId, e.0) as real)
  {
    var key := CuisineKey(CuisineMap(rs), merchantId);
    TallyUnique(rs, key, One);
    EntryLookup(CuisineSales(rs, merchantId), e);
    TallyLookup(rs, key, One, e.0);
    TotalOfOnes(rs, key, e.0);
  }

  /**
   * The report lists each cuisine the merchant sold in once, with its number
   * of item sales, by descending count; every cuisine with a sale is listed.
   */
  lemma ReportCounts(rs: seq<Record>, merchantId: string)
    ensures var ss := CuisineReport(rs, merchantId);
      && (forall s :: s in ss ==> CuisineHits(rs, merchantId, s.cuisine) > 0 && s.count == Fin(CuisineHits(rs, merchantId, s.cuisine) as real))
      && (forall i, j :: 0 <= i < j < |ss| ==> ss[i].cuisine != ss[j].cuisine && ss[i].count.val >= ss[j].count.val)
  {
    var sales := CuisineSales(rs, merchantId);
    var sorted := SortBy(sales, CountValue, GreaterReal);
    var ss := CuisineReport(rs, merchantId);
    TallyUnique(rs, CuisineKey(CuisineMap(rs), merchantId), One);
    PermutationUniqueKeys(sales, sorted);
    GreaterRealIsStrictTotalOrder();
    SortBySorted(sales, CountValue, GreaterReal);
    if |sales| > 0 {
      forall i | 0 <= i < |ss|
        ensures CuisineHits(rs, merchantId, ss[i].cuisine) > 0
        ensures ss[i].count == Fin(CuisineHits(rs, merchantId, ss[i].cuisine) as real)
      {
        assert sorted[i] in multiset(sales);
        SalesEntry(rs, merchantId, sorted[i]);
      }
      forall i, j | 0 <= i < j < |ss| ensures ss[i].cuisine != ss[j].cuisine && ss[i].count.val >= ss[j].count.val {
        assert sorted[i] in multiset(sales) && sorted[j] in multiset(sales);
        SalesEntry(rs, merchantId, sorted[i]);
        SalesEntry(rs, merchantId, sorted[j]);
        assert !GreaterReal(CountValue(sorted[j]), CountValue(sorted[i]));
      }
    }
  }

  /** Every cuisine the merchant sold in is listed. */
  lemma ReportCovers(rs: seq<Record>, merchantId: string, cuisine: string)
    requires CuisineHits(rs, merchantId, cuisine) > 0
    ensures exists s :: s in CuisineReport(rs, merchantId) && s.cuisine == cuisine
  {
    var key := CuisineKey(CuisineMap(rs), merchantId);
    var sales := CuisineSales(rs, merchantId);
    var sorted := SortBy(sales, CountValue, GreaterReal);
    TallyLookup(rs, key, One, cuisine);
    var e := (cuisine, Lookup(sales, cuisine).value);
    assert e in multiset(sorted);
    var p :| 0 <= p < |sorted| && sorted[p] == e;
    var ss := CuisineReport(rs, merchantId);
    assert ss[p].cuisine == cuisine;
  }

  /** The counts add up to the merchant's item sales. */
  lemma ReportTotal(rs: seq<Record>, merchantId: string)
    ensures SumValues(CuisineSales(rs, merchantId)) == Fin(ItemSales(rs, merchantId) as real)
  {
    CountSum(rs, CuisineKey(CuisineMap(rs), merchantId));
  }

  /** Each percentage is the cuisine's share of the counted sales, between 0 and 100. */
  lemma ReportShares(rs: seq<Record>, merchantId: string)
    ensures forall s :: s in CuisineReport(rs, merchantId) ==> s.percentage.Fin? && 0.0 <= s.percentage.val <= 100.0
  {
    forall s | s in CuisineReport(rs, merchantId) ensures s.percentage.Fin? && 0.0 <= s.percentage.val <= 100.0 {
      var i :| 0 <= i < |CuisineReport(rs, merchantId)| && CuisineReport(rs, merchantId)[i] == s;
      ShareAt(rs, merchantId, i);
    }
  }

  lemma ShareAt(rs: seq<Record>, merchantId: string, i: nat)
    requires i < |CuisineReport(rs, merchantId)|
    ensures var s := CuisineReport(rs, merchantId)[i];
      s.percentage.Fin? && 0.0 <= s.percentage.val <= 100.0
  {
    var sales := CuisineSales(rs, merchantId);
    var sorted := SortBy(sales, CountValue, GreaterReal);
    var total := SumValues(sales);
    SalesCounts(rs, merchantId);
    assert sorted[i] in multiset(sales);
    var j :| 0 <= j < |sales| && sales[j] == sorted[i];
    SalesEntry(rs, merchantId, sales[j]);
    ValueWithinSum(sales, j);
    ShareWithin(sales[j].1.val, total.val);
    assert CuisineReport(rs, merchantId)[i].percentage == Percentage(sales[j].1, total);
  }

  /**
   * Each reported percentage is the cuisine's count over all the merchant's
   * item sales, times 100, rounded to cents.
   */
  lemma ReportPercentages(rs: seq<Record>, merchantId: string)
    ensures forall s :: s in CuisineReport(rs, merchantId) ==>
      && ItemSales(rs, merchantId) > 0
      && s.count.Fin?
      && s.percentage == Fin(Round2(s.count.val / ItemSales(rs, merchantId) as real * 100.0))
  {
    var ss := CuisineReport(rs, merchantId);
    var key := CuisineKey(CuisineMap(rs), merchantId);
    forall s | s in ss
      ensures && ItemSales(rs, merchantId) > 0
              && s.count.Fin?
              && s.percentage == Fin(Round2(s.count.val / ItemSales(rs, merchantId) as real * 100.0))
    {
      var i :| 0 <= i < |ss| && ss[i] == s;
      var sales := CuisineSales(rs, merchantId);
      var sorted := SortBy(sales, CountValue, GreaterReal);
      ReportCounts(rs, merchantId);
      ReportTotal(rs, merchantId);
      HitsWithinKeyed(rs, key, s.cuisine);
      assert s == CuisineStat(sorted[i].0, sorted[i].1, Percentage(sorted[i].1, SumValues(sales)));
    }
  }

  /** JavaScript `percentages.reduce((sum, p) => sum + p, 0)` over a report. */
  function PercentSum(ss: seq<CuisineStat>): Num {
    if |ss| == 0 then Fin(0.0) else Add(ss[0].percentage, PercentSum(ss[1..]))
  }

  /**
   * When the merchant sold anything, the percentages add up to 100 up to the
   * rounding of each one to cents: at most half a cent per listed cuisine.
   */
  lemma PercentagesSumTo100(rs: seq<Record>, merchantId: string)
    ensures ItemSales(rs, merchantId) > 0 ==>
      var ss := CuisineReport(rs, merchantId);
      && PercentSum(ss).Fin?
      && 100.0 - 0.005 * |ss| as real <= PercentSum(ss).val <= 100.0 + 0.005 * |ss| as real
  {
    var n := ItemSales(rs, merchantId);
    if n > 0 {
      var sales := CuisineSales(rs, merchantId);
      var sorted := SortBy(sales, CountValue, GreaterReal);
      ReportTotal(rs, merchantId);
      assert |sales| > 0;
      assert |Keys(sales)| > 0;
      SumValuesPermutation(sales, sorted);
      SalesCounts(rs, merchantId);
      forall j | 0 <= j < |sorted| ensures sorted[j].1.Fin? {
        assert sorted[j] in multiset(sales);
      }
      RoundedShares(sorted, n as real);
      assert SumValues(sorted) == Fin(n as real);
      WholeShare(n as real);
    }
  }

  /**
   * Rounding each share to cents moves the sum of the shares by at most half
   * a cent per entry from the exact share of the sum.
   */
  lemma {:induction false} RoundedShares(es: seq<(string, Num)>, total: real)
    requires total != 0.0
    requires forall j :: 0 <= j < |es| ==> es[j].1.Fin?
    ensures SumValues(es).Fin? && PercentSum(ToStats(es, Fin(total))).Fin?
    ensures var exact := SumValues(es).val / total * 100.0;
      var p := PercentSum(ToStats(es, Fin(total))).val;
      exact - 0.005 * |es| as real <= p <= exact + 0.005 * |es| as real
  {
    if |es| > 0 {
      var ss := ToStats(es, Fin(total));
      RoundedShares(es[1..], total);
      assert ss[1..] == ToStats(es[1..], Fin(total));
      var e := es[0].1.val;
      var rest := SumValues(es[1..]).val;
      assert ss[0].percentage == Fin(Round2(Share(e, total)));
      ShareOfSum(e, rest, total);
    }
  }

  lemma WholeShare(total: real)
    requires total != 0.0
    ensures total / total * 100.0 == 100.0
  {
  }

  lemma ShareOfSum(a: real, b: real, total: real)
    requires total != 0.0
    ensures (a + b) / total * 100.0 == Share(a, total) + b / total * 100.0
  {
  }

  /** Every bucket of `cuisineSales` holds a finite, non-negative count. */
  lemma SalesCounts(rs: seq<Record>, merchantId: string)
    ensures var sales := CuisineSales(rs, merchantId);
      forall j :: 0 <= j < |sales| ==> sales[j].1.Fin? && sales[j].1.val >= 0.0
  {
    var sales := CuisineSales(rs, merchantId);
    forall j | 0 <= j < |sales| ensures sales[j].1.Fin? && sales[j].1.val >= 0.0 {
      SalesEntry(rs, merchantId, sales[j]);
    }
  }

  /** A share of a positive whole, in percent and rounded, lies between 0 and 100. */
  lemma ShareWithin(count: real, total: real)
    requires 0.0 < count <= total
    ensures 0.0 <= Round2(Share(count, total)) <= 100.0
  {
    var q := count / total;
    assert q * total == count;
    if q > 1.0 {
      assert q * total > total;
    }
    assert 0.0 <= Share(count, total) == q * 100.0 <= 100.0;
    Round2Within(Share(count, total), 100);
  }
}
