/**
 * Order records as the engine receives them: rows of a CSV file, each a
 * mapping from column name to string, inside a collection that may be absent,
 * not an array, or an array whose rows may be null. Reading a field of a null
 * row throws a TypeError; every metric function reads `merchant_id` (or
 * `item_id`) of every row before anything else, so a null row anywhere makes
 * it throw.
 */
module Orders {
  import opened Wrappers
  import opened JsValues
  import opened Dates

  /** A loosely typed record: a field is absent, empty or a string. */
  type Record = map<string, string>

  datatype Row = NullRow | Obj(fields: Record)

  /** A dataset slot: null or undefined, some other non-array value, or an array. */
  datatype Collection = Missing | NotArray | Array(rows: seq<Row>)

  datatype JsError = TypeError | MissingParameters

  /** `r[f]` is truthy: present and not the empty string. */
  predicate Has(r: Record, f: string) {
    f in r && r[f] != ""
  }

  /** `tx.merchant_id === merchantId`. */
  predicate FromMerchant(r: Record, merchantId: string) {
    "merchant_id" in r && r["merchant_id"] == merchantId
  }

  /**
   * `tx.merchant_id === merchantId && tx.item_id`: the merchant's record of
   * an item sale, as `getTopItems` and `getCuisinePerformance` filter them.
   */
  predicate Sells(r: Record, merchantId: string) {
    FromMerchant(r, merchantId) && Has(r, "item_id")
  }

  /** The rows as records, or None when some row is null. */
  function Records(rows: seq<Row>): (r: Option<seq<Record>>)
    ensures r.None? <==> NullRow in rows
    ensures r.Some? ==> |r.value| == |rows|
    ensures r.Some? ==> forall i :: 0 <= i < |rows| ==> rows[i] == Obj(r.value[i])
  {
    if |rows| == 0 then Some([])
    else
      match (rows[0], Records(rows[1..]))
      case (NullRow, _) => None
      case (_, None) => None
      case (Obj(f), Some(rest)) =>
        assert rows == [rows[0]] + rows[1..];
        Some([f] + rest)
  }

  /** `parseFloat(r[f] || 0)`. */
  function Amount(r: Record, f: string): Num {
    if Has(r, f) then ParseFloat(r[f]) else Fin(0.0)
  }

  /** `r[f] ? new Date(r[f]) : null`, keeping only a valid time value. */
  function Time(cal: Calendar, r: Record, f: string): Option<int> {
    if Has(r, f) then cal.parse(r[f]) else None
  }

  /** `rs.filter(tx => tx.merchant_id === merchantId)`. */
  function MerchantRecords(rs: seq<Record>, merchantId: string): (mr: seq<Record>)
    ensures |mr| <= |rs|
    ensures forall r :: r in mr <==> r in rs && FromMerchant(r, merchantId)
  {
    if |rs| == 0 then []
    else
      var last := rs[|rs| - 1];
      assert rs == rs[..|rs| - 1] + [last];
      MerchantRecords(rs[..|rs| - 1], merchantId) + (if FromMerchant(last, merchantId) then [last] else [])
  }

  /** Filtering distributes over concatenation. */
  lemma {:induction false} MerchantRecordsAppend(a: seq<Record>, b: seq<Record>, merchantId: string)
    ensures MerchantRecords(a + b, merchantId) == MerchantRecords(a, merchantId) + MerchantRecords(b, merchantId)
  {
    if |b| > 0 {
      var c := a + b;
      assert c[..|c| - 1] == a + b[..|b| - 1];
      MerchantRecordsAppend(a, b[..|b| - 1], merchantId);
    } else {
      assert a + b == a;
    }
  }
}
