/**
 * `getOperationalInsights` (insights.js): over the merchant's records, count
 * the orders and average three durations in minutes, each over the records
 * where it is measurable and inside its outlier window: preparation (order to
 * pickup, under two hours), delivery (pickup to delivery, under two hours)
 * and driver wait (arrival to pickup, under one hour). A record without a
 * valid order time counts as an order and contributes to no average.
 */
module Operations {
  import opened Wrappers
  import opened JsValues
  import opened Dates
  import opened Orders

  datatype OperationalMetrics = OperationalMetrics(
    orderCount: nat,
    avgPrepTimeMinutes: real,
    avgDeliveryTimeMinutes: real,
    avgDriverWaitTimeMinutes: real
  )

  /** The result for an absent or non-array `updated_orders`. */
  const NoMetrics := OperationalMetrics(0, 0.0, 0.0, 0.0)

  /** `(later - earlier) / (1000 * 60)` on time values in milliseconds. */
  function Minutes(earlier: int, later: int): real {
    (later - earlier) as real / 60000.0
  }

  /** A duration is kept when it is positive and below the window. */
  function Windowed(m: real, window: real): Option<real> {
    if 0.0 < m < window then Some(m) else None
  }

  /** The preparation time a record contributes: order to pickup, under 120 minutes. */
  function PrepTime(cal: Calendar, r: Record): Option<real> {
    var order := Time(cal, r, "order_time");
    var pickup := Time(cal, r, "driver_pickup_time");
    if order.Some? && pickup.Some? then Windowed(Minutes(order.value, pickup.value), 120.0) else None
  }

  /**
   * The delivery time a record contributes: pickup to delivery, under 120
   * minutes. An invalid pickup date is still a truthy object in the source,
   * but the difference is then NaN and fails the window test.
   */
  function DeliveryTime(cal: Calendar, r: Record): Option<real> {
    var order := Time(cal, r, "order_time");
    var pickup := Time(cal, r, "driver_pickup_time");
    var delivery := Time(cal, r, "delivery_time");
    if order.Some? && pickup.Some? && delivery.Some? then Windowed(Minutes(pickup.value, delivery.value), 120.0) else None
  }

  /** The driver wait a record contributes: arrival to pickup, under 60 minutes. */
  function WaitTime(cal: Calendar, r: Record): Option<real> {
    var order := Time(cal, r, "order_time");
    var arrival := Time(cal, r, "driver_arrival_time");
    var pickup := Time(cal, r, "driver_pickup_time");
    if order.Some? && arrival.Some? && pickup.Some? then Windowed(Minutes(arrival.value, pickup.value), 60.0) else None
  }

  function PrepSamples(cal: Calendar): Record -> Option<real> {
    r => PrepTime(cal, r)
  }

  function DeliverySamples(cal: Calendar): Record -> Option<real> {
    r => DeliveryTime(cal, r)
  }

  function WaitSamples(cal: Calendar): Record -> Option<real> {
    r => WaitTime(cal, r)
  }

  /** The sum of the durations the records contribute. */
  function SampleTotal(rs: seq<Record>, sample: Record -> Option<real>): real {
    if |rs| == 0 then 0.0
    else
      var s := sample(rs[|rs| - 1]);
      SampleTotal(rs[..|rs| - 1], sample) + (if s.Some? then s.value else 0.0)
  }

  /** How many records contribute a duration. */
  function SampleCount(rs: seq<Record>, sample: Record -> Option<real>): nat {
    if |rs| == 0 then 0
    else SampleCount(rs[..|rs| - 1], sample) + (if sample(rs[|rs| - 1]).Some? then 1 else 0)
  }

  /** `count > 0 ? parseFloat((total / count).toFixed(2)) : 0`. */
  function Average(total: real, count: nat): real {
    if count > 0 then Round2(total / count as real) else 0.0
  }

  /** The metrics over the merchant's records. */
  function MetricsOf(ms: seq<Record>, cal: Calendar): OperationalMetrics {
    OperationalMetrics(
      |ms|,
      Average(SampleTotal(ms, PrepSamples(cal)), SampleCount(ms, PrepSamples(cal))),
      Average(SampleTotal(ms, DeliverySamples(cal)), SampleCount(ms, DeliverySamples(cal))),
      Average(SampleTotal(ms, WaitSamples(cal)), SampleCount(ms, WaitSamples(cal))))
  }

  /** What `getOperationalInsights(merchantId, updated_orders)` returns or throws. */
  function OperationalOf(merchantId: string, orders: Collection, cal: Calendar): (r: Result<OperationalMetrics, JsError>)
    ensures !orders.Array? ==> r == Ok(NoMetrics)
    ensures orders.Array? ==> (r.Threw? <==> NullRow in orders.rows)
    ensures r.Ok? && orders.Array? ==> r.value.orderCount == |MerchantRecords(Records(orders.rows).value, merchantId)|
  {
    if !orders.Array? then Ok(NoMetrics)
    else
      match Records(orders.rows)
      case None => Threw(TypeError)
      case Some(rs) => Ok(MetricsOf(MerchantRecords(rs, merchantId), cal))
  }

  /** `getOperationalInsights`: one pass over the merchant's records with seven running totals. */
  method OperationalInsights(merchantId: string, orders: Collection, cal: Calendar) returns (r: Result<OperationalMetrics, JsError>)
    ensures r == OperationalOf(merchantId, orders, cal)
  {
    if !orders.Array? {
      return Ok(NoMetrics);
    }
    var records := Records(orders.rows);
    if records.None? {
      return Threw(TypeError);
    }
    var ms := MerchantRecords(records.value, merchantId);
    var totalOrders := 0;
    var totalPrepTime, totalDeliveryTime, totalDriverWaitTime := 0.0, 0.0, 0.0;
    var validPrepTimes, validDeliveryTimes, validWaitTimes := 0, 0, 0;
    var i := 0;
    while i < |ms|
      invariant 0 <= i <= |ms|
      invariant totalOrders == i
      invariant totalPrepTime == SampleTotal(ms[..i], PrepSamples(cal))
      invariant validPrepTimes == SampleCount(ms[..i], PrepSamples(cal))
      invariant totalDeliveryTime == SampleTotal(ms[..i], DeliverySamples(cal))
      invariant validDeliveryTimes == SampleCount(ms[..i], DeliverySamples(cal))
      invariant totalDriverWaitTime == SampleTotal(ms[..i], WaitSamples(cal))
      invariant validWaitTimes == SampleCount(ms[..i], WaitSamples(cal))
    {
      var tx := ms[i];
      SampleNext(ms, i, PrepSamples(cal));
      SampleNext(ms, i, DeliverySamples(cal));
      SampleNext(ms, i, WaitSamples(cal));
      totalOrders := totalOrders + 1;
      var prep, delivery, wait := Durations(cal, tx);
      if prep.Some? {
        totalPrepTime := totalPrepTime + prep.value;
        validPrepTimes := validPrepTimes + 1;
      }
      if delivery.Some? {
        totalDeliveryTime := totalDeliveryTime + delivery.value;
        validDeliveryTimes := validDeliveryTimes + 1;
      }
      if wait.Some? {
        totalDriverWaitTime := totalDriverWaitTime + wait.value;
        validWaitTimes := validWaitTimes + 1;
      }
      i := i + 1;
    }
    assert ms[..|ms|] == ms;
    r := Ok(OperationalMetrics(
      totalOrders,
      if validPrepTimes > 0 then Round2(totalPrepTime / validPrepTimes as real) else 0.0,
      if validDeliveryTimes > 0 then Round2(totalDeliveryTime / validDeliveryTimes as real) else 0.0,
      if validWaitTimes > 0 then Round2(totalDriverWaitTime / validWaitTimes as real) else 0.0));
  }

  /** The body of the `forEach`: the three durations one record contributes, if any. */
  method Durations(cal: Calendar, tx: Record) returns (prep: Option<real>, delivery: Option<real>, wait: Option<real>)
    ensures prep == PrepTime(cal, tx) && delivery == DeliveryTime(cal, tx) && wait == WaitTime(cal, tx)
  {
    prep, delivery, wait := None, None, None;
    var orderTime := Time(cal, tx, "order_time");
    var driverArrivalTime := Time(cal, tx, "driver_arrival_time");
    var pickupTime := Time(cal, tx, "driver_pickup_time");
    var deliveryTime := Time(cal, tx, "delivery_time");
    if orderTime.Some? {
      if pickupTime.Some? {
        var prepTimeMinutes := Minutes(orderTime.value, pickupTime.value);
        if 0.0 < prepTimeMinutes < 120.0 {
          prep := Some(prepTimeMinutes);
        }
      }
      if pickupTime.Some? && deliveryTime.Some? {
        var deliveryTimeMinutes := Minutes(pickupTime.value, deliveryTime.value);
        if 0.0 < deliveryTimeMinutes < 120.0 {
          delivery := Some(deliveryTimeMinutes);
        }
      }
      if driverArrivalTime.Some? && pickupTime.Some? {
        var waitTimeMinutes := Minutes(driverArrivalTime.value, pickupTime.value);
        if 0.0 < waitTimeMinutes < 60.0 {
          wait := Some(waitTimeMinutes);
        }
      }
    }
  }

  /** One more record adds its duration, if it has one, to the total and the count. */
  lemma SampleNext(ms: seq<Record>, i: nat, sample: Record -> Option<real>)
    requires i < |ms|
    ensures var s := sample(ms[i]);
      && SampleTotal(ms[..i + 1], sample) == SampleTotal(ms[..i], sample) + (if s.Some? then s.value else 0.0)
      && SampleCount(ms[..i + 1], sample) == SampleCount(ms[..i], sample) + (if s.Some? then 1 else 0)
  {
    assert ms[..i + 1][..i] == ms[..i];
  }

  // ---------------------------------------------------------------------------
  // Properties

  /** Every contributed duration lies strictly inside its window. */
  ghost predicate InWindow(sample: Record -> Option<real>, window: nat) {
    forall r :: sample(r).Some? ==> 0.0 < sample(r).value < window as real
  }

  /**
   * No more records contribute than there are, and the total of the
   * contributed durations lies between zero and the window times their count.
   */
  lemma {:induction false} SampleBounds(rs: seq<Record>, sample: Record -> Option<real>, window: nat)
    requires InWindow(sample, window)
    ensures SampleCount(rs, sample) <= |rs|
    ensures 0.0 <= SampleTotal(rs, sample) <= window as real * SampleCount(rs, sample) as real
    ensures SampleCount(rs, sample) == 0 ==> SampleTotal(rs, sample) == 0.0
  {
    if |rs| > 0 {
      var prefix := rs[..|rs| - 1];
      SampleBounds(prefix, sample, window);
      var s := sample(rs[|rs| - 1]);
      var total, count := SampleTotal(prefix, sample), SampleCount(prefix, sample);
      if s.Some? {
        assert 0.0 < s.value < window as real;
        assert SampleTotal(rs, sample) == total + s.value;
        assert SampleCount(rs, sample) == count + 1;
        assert window as real * (count + 1) as real == window as real * count as real + window as real;
      } else {
        assert SampleTotal(rs, sample) == total;
        assert SampleCount(rs, sample) == count;
      }
    }
  }

  /** An average of durations inside a window, rounded to cents, stays inside it. */
  lemma AverageWithin(rs: seq<Record>, sample: Record -> Option<real>, window: nat)
    requires InWindow(sample, window)
    ensures 0.0 <= Average(SampleTotal(rs, sample), SampleCount(rs, sample)) <= window as real
  {
    SampleBounds(rs, sample, window);
    AverageBounded(SampleTotal(rs, sample), SampleCount(rs, sample), window);
  }

  lemma AverageBounded(total: real, count: nat, window: nat)
    requires 0.0 <= total <= window as real * count as real
    ensures 0.0 <= Average(total, count) <= window as real
  {
    if count > 0 {
      var q := total / count as real;
      QuotientWithin(total, count as real, window as real);
      Round2Within(q, window);
    }
  }

  lemma QuotientWithin(total: real, count: real, bound: real)
    requires count > 0.0 && 0.0 <= total <= bound * count
    ensures 0.0 <= total / count <= bound
  {
    var q := total / count;
    assert q * count == total;
    if q > bound {
      assert q * count > bound * count;
    }
  }

  /**
   * The averages are zero when nothing was measured and otherwise lie within
   * the outlier windows: at most 120 minutes of preparation, 120 of delivery
   * and 60 of driver wait; no average counts more samples than orders.
   */
  lemma MetricsBounded(ms: seq<Record>, cal: Calendar)
    ensures var m := MetricsOf(ms, cal);
      && 0.0 <= m.avgPrepTimeMinutes <= 120.0
      && 0.0 <= m.avgDeliveryTimeMinutes <= 120.0
      && 0.0 <= m.avgDriverWaitTimeMinutes <= 60.0
    ensures SampleCount(ms, PrepSamples(cal)) <= |ms|
    ensures SampleCount(ms, DeliverySamples(cal)) <= |ms|
    ensures SampleCount(ms, WaitSamples(cal)) <= |ms|
  {
    Windows(cal);
    MetricWithin(ms, PrepSamples(cal), 120);
    MetricWithin(ms, DeliverySamples(cal), 120);
    MetricWithin(ms, WaitSamples(cal), 60);
  }

  /** The three outlier windows. */
  lemma Windows(cal: Calendar)
    ensures InWindow(PrepSamples(cal), 120)
    ensures InWindow(DeliverySamples(cal), 120)
    ensures InWindow(WaitSamples(cal), 60)
  {
  }

  lemma MetricWithin(ms: seq<Record>, sample: Record -> Option<real>, window: nat)
    requires InWindow(sample, window)
    ensures 0.0 <= Average(SampleTotal(ms, sample), SampleCount(ms, sample)) <= window as real
    ensures SampleCount(ms, sample) <= |ms|
  {
    AverageWithin(ms, sample, window);
    SampleBounds(ms, sample, window);
  }

  /** A record without a valid order time is an order but contributes no duration. */
  lemma NoOrderTimeNoSample(ms: seq<Record>, cal: Calendar, r: Record)
    requires Time(cal, r, "order_time").None?
    ensures MetricsOf(ms + [r], cal).orderCount == MetricsOf(ms, cal).orderCount + 1
    ensures MetricsOf(ms + [r], cal).avgPrepTimeMinutes == MetricsOf(ms, cal).avgPrepTimeMinutes
    ensures MetricsOf(ms + [r], cal).avgDeliveryTimeMinutes == MetricsOf(ms, cal).avgDeliveryTimeMinutes
    ensures MetricsOf(ms + [r], cal).avgDriverWaitTimeMinutes == MetricsOf(ms, cal).avgDriverWaitTimeMinutes
  {
    assert (ms + [r])[..|ms|] == ms;
  }
}
