/**
 * `getTotalSales` and `getSalesTrend` (insights.js). The total sums
 * `total_order_value`, the trend sums `order_value`: two different columns,
 * so the trend buckets need not add up to the total.
 */
module Sales {
  import opened Wrappers
  import opened JsValues
  import opened Dates
  import opened Orders
  import opened AssocList
  import opened StableSort
  import opened Buckets

  // ---------------------------------------------------------------------------
  // getTotalSales

  /** `rs.reduce((total, tx) => total + parseFloat(tx[f] || 0), 0)`. */
  function SumAmounts(rs: seq<Record>, f: string): Num {
    if |rs| == 0 then Fin(0.0)
    else Add(SumAmounts(rs[..|rs| - 1], f), Amount(rs[|rs| - 1], f))
  }

  /** The total over a merchant's records of an array with no null row. */
  function SalesOf(rs: seq<Record>, merchantId: string): Num {
    SumAmounts(MerchantRecords(rs, merchantId), "total_order_value")
  }

  /** `getTotalSales(merchantId, updated_orders)`. */
  function TotalSales(merchantId: string, orders: Collection): (r: Result<Num, JsError>)
    ensures !orders.Array? ==> r == Ok(Fin(0.0))
    ensures orders.Array? ==> (r.Threw? <==> NullRow in orders.rows)
  {
    if !orders.Array? then Ok(Fin(0.0))
    else
      match Records(orders.rows)
      case None => Threw(TypeError)
      case Some(rs) => Ok(SalesOf(rs, merchantId))
  }

  lemma {:induction false} SumAmountsAppend(a: seq<Record>, b: seq<Record>, f: string)
    ensures SumAmounts(a + b, f) == Add(SumAmounts(a, f), SumAmounts(b, f))
  {
    if |b| == 0 {
      assert a + b == a;
    } else {
      var c := a + b;
      var front := b[..|b| - 1];
      assert c[..|c| - 1] == a + front;
      assert c[|c| - 1] == b[|b| - 1];
      SumAmountsAppend(a, front, f);
      assert SumAmounts(c, f) == Add(Add(SumAmounts(a, f), SumAmounts(front, f)), Amount(b[|b| - 1], f));
      assert SumAmounts(b, f) == Add(SumAmounts(front, f), Amount(b[|b| - 1], f));
    }
  }

  /** The total over two batches of records is the sum of their totals. */
  lemma SalesOfAppend(a: seq<Record>, b: seq<Record>, merchantId: string)
    ensures SalesOf(a + b, merchantId) == Add(SalesOf(a, merchantId), SalesOf(b, merchantId))
  {
    MerchantRecordsAppend(a, b, merchantId);
    SumAmountsAppend(MerchantRecords(a, merchantId), MerchantRecords(b, merchantId), "total_order_value");
  }

  /** One record adds its parsed `total_order_value` if it is the merchant's, else nothing. */
  lemma SalesOfOne(r: Record, merchantId: string)
    ensures SalesOf([r], merchantId) == if FromMerchant(r, merchantId) then Amount(r, "total_order_value") else Fin(0.0)
  {
    assert [r][..0] == [];
    if FromMerchant(r, merchantId) {
      assert MerchantRecords([r], merchantId) == [r];
      assert SumAmounts([r], "total_order_value") == Add(Fin(0.0), Amount(r, "total_order_value"));
    }
  }

  lemma {:induction false} SumAmountsFinite(rs: seq<Record>, f: string)
    ensures SumAmounts(rs, f).Fin? <==> forall r :: r in rs ==> Amount(r, f).Fin?
    ensures (forall r :: r in rs ==> Amount(r, f).Fin? && Amount(r, f).val >= 0.0) ==> SumAmounts(rs, f).val >= 0.0
  {
    if |rs| > 0 {
      assert rs == rs[..|rs| - 1] + [rs[|rs| - 1]];
      SumAmountsFinite(rs[..|rs| - 1], f);
    }
  }

  /**
   * The total is NaN exactly when one of the merchant's records has a
   * `total_order_value` that parseFloat rejects; a missing or empty value
   * counts as 0. With non-negative amounts the total is non-negative.
   */
  lemma SalesOfFinite(rs: seq<Record>, merchantId: string)
    ensures SalesOf(rs, merchantId).NaN? <==>
      exists r :: r in rs && FromMerchant(r, merchantId) && Amount(r, "total_order_value").NaN?
    ensures (forall r :: r in rs && FromMerchant(r, merchantId) ==> Amount(r, "total_order_value") != NaN && Amount(r, "total_order_value").val >= 0.0)
      ==> SalesOf(rs, merchantId).Fin? && SalesOf(rs, merchantId).val >= 0.0
  {
    SumAmountsFinite(MerchantRecords(rs, merchantId), "total_order_value");
  }

  // ---------------------------------------------------------------------------
  // getSalesTrend

  /** The `period` argument: one of the three the code recognises, or anything else. */
  datatype Period = Daily | Weekly | Monthly | Unrecognized

  /** `dateKey`; for an unrecognised period it stays undefined and names the property "undefined". */
  function PeriodKey(cal: Calendar, period: Period, t: int): string {
    match period
    case Daily => cal.isoDate(t)
    case Weekly => WeekKey(cal, t)
    case Monthly => MonthKey(cal, t)
    case Unrecognized => "undefined"
  }

  /** The order time of a record the trend counts: the merchant's, with a valid `order_time`. */
  function TrendTime(cal: Calendar, r: Record, merchantId: string): Option<int> {
    if FromMerchant(r, merchantId) then Time(cal, r, "order_time") else None
  }

  /** The bucket of a record in the trend, None for a record the trend skips. */
  function TrendKey(cal: Calendar, merchantId: string, period: Period): Record -> Option<string> {
    r => if TrendTime(cal, r, merchantId).Some? then Some(PeriodKey(cal, period, TrendTime(cal, r, merchantId).value)) else None
  }

  /** `parseFloat(tx.order_value || 0)`. */
  function OrderValue(r: Record): Num {
    Amount(r, "order_value")
  }

  /** `trendMap` after the `forEach` over the records. */
  function TrendBuckets(rs: seq<Record>, merchantId: string, period: Period, cal: Calendar): seq<(string, Num)> {
    Tally(rs, TrendKey(cal, merchantId, period), OrderValue)
  }

  /** The key a daily trend is sorted by: `new Date(date)`. */
  function DayOf(cal: Calendar): ((string, Num)) -> int {
    (e: (string, Num)) => cal.dayValue(e.0)
  }

  function BucketName(e: (string, Num)): string {
    e.0
  }

  /** The comparator of the trend: by date for daily buckets, by key string otherwise. */
  function SortBuckets(buckets: seq<(string, Num)>, period: Period, cal: Calendar): seq<(string, Num)> {
    if period == Daily then SortBy(buckets, DayOf(cal), Less)
    else SortBy(buckets, BucketName, StrLt)
  }

  datatype TrendPoint = TrendPoint(date: string, total: Num)

  /** `.map(([date, total]) => ({ date, total: parseFloat(total.toFixed(2)) }))`. */
  function ToPoints(buckets: seq<(string, Num)>): (ps: seq<TrendPoint>)
    ensures |ps| == |buckets|
    ensures forall i :: 0 <= i < |ps| ==> ps[i] == TrendPoint(buckets[i].0, Fixed2(buckets[i].1))
  {
    if |buckets| == 0 then []
    else [TrendPoint(buckets[0].0, Fixed2(buckets[0].1))] + ToPoints(buckets[1..])
  }

  function TrendOf(rs: seq<Record>, merchantId: string, period: Period, cal: Calendar): seq<TrendPoint> {
    ToPoints(SortBuckets(TrendBuckets(rs, merchantId, period, cal), period, cal))
  }

  /** What `getSalesTrend(merchantId, updated_orders, period)` returns or throws. */
  function SalesTrendOf(merchantId: string, orders: Collection, cal: Calendar, period: Period): (r: Result<seq<TrendPoint>, JsError>)
    ensures !orders.Array? ==> r == Ok([])
    ensures orders.Array? ==> (r.Threw? <==> NullRow in orders.rows)
  {
    if !orders.Array? then Ok([])
    else
      match Records(orders.rows)
      case None => Threw(TypeError)
      case Some(rs) => Ok(TrendOf(rs, merchantId, period, cal))
  }

  /** `getSalesTrend`: fills `trendMap` record by record, then sorts and rounds its entries. */
  method SalesTrend(merchantId: string, orders: Collection, cal: Calendar, period: Period := Daily)
    returns (r: Result<seq<TrendPoint>, JsError>)
    ensures r == SalesTrendOf(merchantId, orders, cal, period)
  {
    if !orders.Array? {
      return Ok([]);
    }
    var records := Records(orders.rows);
    if records.None? {
      return Threw(TypeError);
    }
    var rs := records.value;
    var trendMap: seq<(string, Num)> := [];
    var i := 0;
    while i < |rs|
      invariant 0 <= i <= |rs|
      invariant trendMap == TrendBuckets(rs[..i], merchantId, period, cal)
    {
      var tx := rs[i];
      TallyNext(rs, i, TrendKey(cal, merchantId, period), OrderValue);
      ghost var key := TrendKey(cal, merchantId, period);
      ghost var expected := TallyStep(trendMap, tx, key, OrderValue);
      if FromMerchant(tx, merchantId) && Has(tx, "order_time") {
        var date := cal.parse(tx["order_time"]);
        if date.Some? {
          var dateKey := PeriodKey(cal, period, date.value);
          var value := Amount(tx, "order_value");
          assert key(tx) == Some(dateKey) && OrderValue(tx) == value;
          trendMap := Put(trendMap, dateKey, Add(OrZero(Lookup(trendMap, dateKey)), value));
        } else {
          assert key(tx) == None;
        }
      } else {
        assert key(tx) == None;
      }
      assert trendMap == expected;
      i := i + 1;
    }
    assert rs[..|rs|] == rs;
    r := Ok(ToPoints(SortBuckets(trendMap, period, cal)));
  }

  // ---------------------------------------------------------------------------
  // Properties of the trend

  /** How many of the records the trend puts in bucket `key`. */
  function KeyHits(rs: seq<Record>, merchantId: string, period: Period, cal: Calendar, key: string): nat {
    Hits(rs, TrendKey(cal, merchantId, period), key)
  }

  /** The sum of `order_value` over the records the trend puts in bucket `key`. */
  function KeySum(rs: seq<Record>, merchantId: string, period: Period, cal: Calendar, key: string): real {
    Total(rs, TrendKey(cal, merchantId, period), OrderValue, key)
  }

  /** Every record the trend counts has an `order_value` that is missing or numeric. */
  ghost predicate TrendAmountsFinite(rs: seq<Record>, merchantId: string, cal: Calendar) {
    forall i :: 0 <= i < |rs| && TrendTime(cal, rs[i], merchantId).Some? ==> OrderValue(rs[i]).Fin?
  }

  lemma BucketsSortedUnique(buckets: seq<(string, Num)>, period: Period, cal: Calendar)
    requires UniqueKeys(buckets)
    ensures UniqueKeys(SortBuckets(buckets, period, cal))
    ensures multiset(SortBuckets(buckets, period, cal)) == multiset(buckets)
  {
    PermutationUniqueKeys(buckets, SortBuckets(buckets, period, cal));
  }

  /**
   * The trend has one point per bucket: a point for `key` exists iff some
   * counted record has that key, and no two points share a date.
   */
  lemma TrendPointsKeys(rs: seq<Record>, merchantId: string, period: Period, cal: Calendar, key: string)
    ensures var ps := TrendOf(rs, merchantId, period, cal);
      && (forall i, j :: 0 <= i < j < |ps| ==> ps[i].date != ps[j].date)
      && ((exists i :: 0 <= i < |ps| && ps[i].date == key) <==> KeyHits(rs, merchantId, period, cal, key) > 0)
  {
    var b := TrendBuckets(rs, merchantId, period, cal);
    var s := SortBuckets(b, period, cal);
    var ps := TrendOf(rs, merchantId, period, cal);
    TallyUnique(rs, TrendKey(cal, merchantId, period), OrderValue);
    BucketsSortedUnique(b, period, cal);
    TallyBucket(rs, TrendKey(cal, merchantId, period), OrderValue, key);
    forall i, j | 0 <= i < j < |ps| ensures ps[i].date != ps[j].date {
      assert ps[i].date == s[i].0 && ps[j].date == s[j].0;
    }
    if KeyHits(rs, merchantId, period, cal, key) > 0 {
      var v := Lookup(b, key).value;
      assert (key, v) in multiset(s);
      var i :| 0 <= i < |s| && s[i] == (key, v);
      assert ps[i].date == key;
    }
    if exists i :: 0 <= i < |ps| && ps[i].date == key {
      var i :| 0 <= i < |ps| && ps[i].date == key;
      assert s[i] in multiset(b);
      EntryLookup(b, s[i]);
    }
  }

  /**
   * The total of the point for `key`, in general: `(trendMap[key] || 0)`
   * restarts a bucket after a record whose `order_value` is not numeric
   * (NaN), so the total is NaN when the last record with that key had such a
   * value, and otherwise the sum of `order_value` over the records with that
   * key after the last such record, rounded to cents.
   */
  lemma TrendPointsValues(rs: seq<Record>, merchantId: string, period: Period, cal: Calendar, key: string)
    ensures var ps := TrendOf(rs, merchantId, period, cal);
      var c := NaNCut(rs, TrendKey(cal, merchantId, period), OrderValue, key);
      forall i :: 0 <= i < |ps| && ps[i].date == key ==>
        ps[i].total ==
          if KeyHits(rs[c..], merchantId, period, cal, key) == 0 then NaN
          else Fin(Round2(KeySum(rs[c..], merchantId, period, cal, key)))
  {
    var b := TrendBuckets(rs, merchantId, period, cal);
    var s := SortBuckets(b, period, cal);
    var ps := TrendOf(rs, merchantId, period, cal);
    TallyUnique(rs, TrendKey(cal, merchantId, period), OrderValue);
    BucketsSortedUnique(b, period, cal);
    var c := NaNCut(rs, TrendKey(cal, merchantId, period), OrderValue, key);
    var expected :=
      if KeyHits(rs[c..], merchantId, period, cal, key) == 0 then NaN
      else Fin(Round2(KeySum(rs[c..], merchantId, period, cal, key)));
    TallyBucket(rs, TrendKey(cal, merchantId, period), OrderValue, key);
    assert Lookup(b, key).Some? ==> Fixed2(Lookup(b, key).value) == expected;
    forall i | 0 <= i < |ps| && ps[i].date == key
      ensures ps[i].total == expected
    {
      assert s[i] in multiset(b);
      EntryLookup(b, s[i]);
      assert ps[i].total == Fixed2(s[i].1);
    }
  }

  /**
   * When every counted record has a numeric `order_value`, the total of the
   * point for `key` is the sum of `order_value` over all records with that
   * key, rounded to cents.
   */
  lemma TrendPointsTotals(rs: seq<Record>, merchantId: string, period: Period, cal: Calendar, key: string)
    requires TrendAmountsFinite(rs, merchantId, cal)
    ensures var ps := TrendOf(rs, merchantId, period, cal);
      forall i :: 0 <= i < |ps| && ps[i].date == key ==>
        ps[i].total == Fin(Round2(KeySum(rs, merchantId, period, cal, key)))
  {
    assert FiniteAmounts(rs, TrendKey(cal, merchantId, period), OrderValue) by {
      forall i | 0 <= i < |rs| && TrendKey(cal, merchantId, period)(rs[i]).Some? ensures OrderValue(rs[i]).Fin? {
        assert TrendTime(cal, rs[i], merchantId).Some?;
      }
    }
    NaNCutFinite(rs, TrendKey(cal, merchantId, period), OrderValue, key);
    assert rs[0..] == rs;
    TrendPointsValues(rs, merchantId, period, cal, key);
    TrendPointsKeys(rs, merchantId, period, cal, key);
  }

  /**
   * Order of the trend: daily points ascend by date value; weekly, monthly
   * and other points ascend strictly by key string.
   */
  lemma TrendPointsOrdered(rs: seq<Record>, merchantId: string, period: Period, cal: Calendar)
    ensures var ps := TrendOf(rs, merchantId, period, cal);
      forall i, j :: 0 <= i < j < |ps| ==>
        if period == Daily then cal.dayValue(ps[i].date) <= cal.dayValue(ps[j].date)
        else StrLt(ps[i].date, ps[j].date)
  {
    var b := TrendBuckets(rs, merchantId, period, cal);
    var s := SortBuckets(b, period, cal);
    var ps := TrendOf(rs, merchantId, period, cal);
    TallyUnique(rs, TrendKey(cal, merchantId, period), OrderValue);
    BucketsSortedUnique(b, period, cal);
    if period == Daily {
      LessIsStrictTotalOrder();
      SortBySorted(b, DayOf(cal), Less);
      forall i, j | 0 <= i < j < |ps| ensures cal.dayValue(ps[i].date) <= cal.dayValue(ps[j].date) {
        assert !Less(DayOf(cal)(s[j]), DayOf(cal)(s[i]));
      }
    } else {
      StrLtIsStrictTotalOrder();
      SortBySorted(b, BucketName, StrLt);
      forall i, j | 0 <= i < j < |ps| ensures StrLt(ps[i].date, ps[j].date) {
        SortedDistinctAscending(s, BucketName, StrLt, i, j);
      }
    }
  }
}
