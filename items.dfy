/**
 * `getTopItems` (insights.js): count the merchant's sold items by `item_id`
 * in `itemFrequency`, keeping the name and price of the first sale, sort the
 * entries by descending count (stably) and keep the first `limit`.
 */
module Items {
  import opened Wrappers
  import opened JsValues
  import opened Orders
  import opened AssocList
  import opened StableSort

  /** The value of `itemFrequency[itemId]`: `{ count, name, price }`. */
  datatype ItemStat = ItemStat(count: nat, name: string, price: Num)

  /** The entry created for an item on its first sale, before its count is bumped. */
  function FirstStat(r: Record): ItemStat {
    ItemStat(0, if Has(r, "item_name") then r["item_name"] else "Unknown Item", Amount(r, "item_price"))
  }

  /** One iteration of the `forEach`: create the entry if missing, then add one to its count. */
  function FrequencyStep(freq: seq<(string, ItemStat)>, r: Record, merchantId: string): seq<(string, ItemStat)> {
    if !Sells(r, merchantId) then freq else Upsert(freq, r["item_id"], FirstStat(r), Bump)
  }

  /** `itemFrequency[id].count++`. */
  function Bump(stat: ItemStat): ItemStat {
    stat.(count := stat.count + 1)
  }

  /** `itemFrequency` after the `forEach` over the records. */
  function ItemFrequency(rs: seq<Record>, merchantId: string): seq<(string, ItemStat)> {
    if |rs| == 0 then []
    else FrequencyStep(ItemFrequency(rs[..|rs| - 1], merchantId), rs[|rs| - 1], merchantId)
  }

  /** The sort key of `(a, b) => b.count - a.count`. */
  function CountOf(e: (string, ItemStat)): int {
    e.1.count
  }

  /** `s.slice(0, limit)`: a negative limit counts from the end. */
  function Slice<T>(s: seq<T>, limit: int): (r: seq<T>)
    ensures |r| == if limit >= 0 then Min(limit, |s|) else Max(|s| + limit, 0)
    ensures r == s[..|r|]
  {
    if limit >= 0 then s[..Min(limit, |s|)] else s[..Max(|s| + limit, 0)]
  }

  function Min(a: int, b: int): int {
    if a <= b then a else b
  }

  function Max(a: int, b: int): int {
    if a >= b then a else b
  }

  datatype TopItem = TopItem(id: string, name: string, price: Num, count: nat, revenue: Num)

  /** `parseFloat((data.price * data.count).toFixed(2))`. */
  function Revenue(price: Num, count: nat): Num {
    Fixed2(Scale(price, count as real))
  }

  function ToTopItem(e: (string, ItemStat)): TopItem {
    TopItem(e.0, e.1.name, e.1.price, e.1.count, Revenue(e.1.price, e.1.count))
  }

  function ToTopItems(es: seq<(string, ItemStat)>): (ts: seq<TopItem>)
    ensures |ts| == |es|
    ensures forall i :: 0 <= i < |es| ==> ts[i] == ToTopItem(es[i])
  {
    if |es| == 0 then [] else [ToTopItem(es[0])] + ToTopItems(es[1..])
  }

  /** The entries of `itemFrequency` by descending count. */
  function Ranked(rs: seq<Record>, merchantId: string): seq<(string, ItemStat)> {
    SortBy(ItemFrequency(rs, merchantId), CountOf, Greater)
  }

  function TopItemsFrom(rs: seq<Record>, merchantId: string, limit: int): seq<TopItem> {
    ToTopItems(Slice(Ranked(rs, merchantId), limit))
  }

  /** What `getTopItems(merchantId, updated_orders, limit)` returns or throws. */
  function TopItemsOf(merchantId: string, orders: Collection, limit: int): (r: Result<seq<TopItem>, JsError>)
    ensures !orders.Array? ==> r == Ok([])
    ensures orders.Array? ==> (r.Threw? <==> NullRow in orders.rows)
  {
    if !orders.Array? then Ok([])
    else
      match Records(orders.rows)
      case None => Threw(TypeError)
      case Some(rs) => Ok(TopItemsFrom(rs, merchantId, limit))
  }

  /** `getTopItems`: fills `itemFrequency`, then ranks and cuts it. */
  method TopItems(merchantId: string, orders: Collection, limit: int := 5) returns (r: Result<seq<TopItem>, JsError>)
    ensures r == TopItemsOf(merchantId, orders, limit)
  {
    if !orders.Array? {
      return Ok([]);
    }
    var records := Records(orders.rows);
    if records.None? {
      return Threw(TypeError);
    }
    var itemFrequency := CountItems(records.value, merchantId);
    r := Ok(ToTopItems(Slice(SortBy(itemFrequency, CountOf, Greater), limit)));
  }

  /** The `forEach` of `getTopItems`, record by record. */
  method CountItems(rs: seq<Record>, merchantId: string) returns (itemFrequency: seq<(string, ItemStat)>)
    ensures itemFrequency == ItemFrequency(rs, merchantId)
  {
    itemFrequency := [];
    var i := 0;
    while i < |rs|
      invariant 0 <= i <= |rs|
      invariant itemFrequency == ItemFrequency(rs[..i], merchantId)
    {
      ItemFrequencyNext(rs, i, merchantId);
      itemFrequency := CountOne(itemFrequency, rs[i], merchantId);
      i := i + 1;
    }
    assert rs[..|rs|] == rs;
  }

  /** The body of the `forEach` for one record. */
  method CountOne(itemFrequency: seq<(string, ItemStat)>, tx: Record, merchantId: string) returns (next: seq<(string, ItemStat)>)
    ensures next == FrequencyStep(itemFrequency, tx, merchantId)
  {
    next := itemFrequency;
    if FromMerchant(tx, merchantId) && Has(tx, "item_id") {
      var itemId := tx["item_id"];
      if Lookup(next, itemId).None? {
        next := Put(next, itemId, FirstStat(tx));
      }
      assert next == if Lookup(itemFrequency, itemId).None? then Put(itemFrequency, itemId, FirstStat(tx)) else itemFrequency;
      var stat := Lookup(next, itemId).value;
      assert Upsert(itemFrequency, itemId, FirstStat(tx), Bump) == Put(next, itemId, Bump(stat));
      next := Put(next, itemId, stat.(count := stat.count + 1));
    }
  }

  lemma ItemFrequencyNext(rs: seq<Record>, i: nat, merchantId: string)
    requires i < |rs|
    ensures ItemFrequency(rs[..i + 1], merchantId) == FrequencyStep(ItemFrequency(rs[..i], merchantId), rs[i], merchantId)
  {
    assert rs[..i + 1][..i] == rs[..i];
  }

  // ---------------------------------------------------------------------------
  // Properties

  /** Record `r` is a sale of item `id` by the merchant. */
  predicate SaleOf(r: Record, merchantId: string, id: string) {
    Sells(r, merchantId) && r["item_id"] == id
  }

  /** How many of the merchant's records sell item `id`. */
  function Sold(rs: seq<Record>, merchantId: string, id: string): nat {
    if |rs| == 0 then 0
    else Sold(rs[..|rs| - 1], merchantId, id) + (if SaleOf(rs[|rs| - 1], merchantId, id) then 1 else 0)
  }

  /** The first of the merchant's records that sells item `id`. */
  function FirstSale(rs: seq<Record>, merchantId: string, id: string): (f: Option<Record>)
    ensures f.Some? <==> Sold(rs, merchantId, id) > 0
    ensures f.Some? ==> f.value in rs && SaleOf(f.value, merchantId, id)
  {
    if |rs| == 0 then None
    else
      var prior := FirstSale(rs[..|rs| - 1], merchantId, id);
      if prior.Some? then prior
      else if SaleOf(rs[|rs| - 1], merchantId, id) then Some(rs[|rs| - 1])
      else None
  }

  /** The item ids the merchant sold, each once, in order of first sale. */
  function SoldIds(rs: seq<Record>, merchantId: string): seq<string> {
    if |rs| == 0 then []
    else
      var ids := SoldIds(rs[..|rs| - 1], merchantId);
      var r := rs[|rs| - 1];
      if Sells(r, merchantId) && r["item_id"] !in ids then ids + [r["item_id"]] else ids
  }

  lemma FrequencyStepLookup(freq: seq<(string, ItemStat)>, r: Record, merchantId: string, id: string)
    ensures Lookup(FrequencyStep(freq, r, merchantId), id) ==
      if SaleOf(r, merchantId, id) then
        var stat := if Lookup(freq, id).Some? then Lookup(freq, id).value else FirstStat(r);
        Some(Bump(stat))
      else Lookup(freq, id)
  {
    if Sells(r, merchantId) {
      UpsertLookup(freq, r["item_id"], FirstStat(r), Bump, id);
    }
  }

  /**
   * The entry of item `id` counts exactly the merchant's sales of it and
   * keeps the name and price of the first one; there is an entry iff there
   * is a sale.
   */
  lemma {:induction false} FrequencyLookup(rs: seq<Record>, merchantId: string, id: string)
    ensures Lookup(ItemFrequency(rs, merchantId), id) ==
      if Sold(rs, merchantId, id) > 0
      then Some(FirstStat(FirstSale(rs, merchantId, id).value).(count := Sold(rs, merchantId, id)))
      else None
  {
    if |rs| > 0 {
      var prefix := rs[..|rs| - 1];
      FrequencyLookup(prefix, merchantId, id);
      FrequencyStepLookup(ItemFrequency(prefix, merchantId), rs[|rs| - 1], merchantId, id);
    }
  }

  /** The entries of `itemFrequency` are in order of first sale, one per item. */
  lemma {:induction false} FrequencyKeys(rs: seq<Record>, merchantId: string)
    ensures Keys(ItemFrequency(rs, merchantId)) == SoldIds(rs, merchantId)
    ensures UniqueKeys(ItemFrequency(rs, merchantId))
  {
    if |rs| > 0 {
      var prefix := rs[..|rs| - 1];
      FrequencyKeys(prefix, merchantId);
      var r := rs[|rs| - 1];
      if Sells(r, merchantId) {
        UpsertKeys(ItemFrequency(prefix, merchantId), r["item_id"], FirstStat(r), Bump);
      }
    }
  }

  /** An item has an entry in the ranking iff the merchant sold it. */
  lemma SoldIdsExactly(rs: seq<Record>, merchantId: string, id: string)
    ensures id in SoldIds(rs, merchantId) <==> Sold(rs, merchantId, id) > 0
  {
    FrequencyKeys(rs, merchantId);
    FrequencyLookup(rs, merchantId, id);
  }

  /** The ranking holds one entry per sold item. */
  lemma RankedUnique(rs: seq<Record>, merchantId: string)
    ensures UniqueKeys(Ranked(rs, merchantId))
    ensures |Ranked(rs, merchantId)| == |SoldIds(rs, merchantId)|
  {
    FrequencyKeys(rs, merchantId);
    PermutationUniqueKeys(ItemFrequency(rs, merchantId), Ranked(rs, merchantId));
  }

  /** A ranked entry counts its item's sales and carries the name and price of the first sale. */
  lemma RankedEntry(rs: seq<Record>, merchantId: string, e: (string, ItemStat))
    requires e in Ranked(rs, merchantId)
    ensures Sold(rs, merchantId, e.0) > 0
    ensures e.1 == FirstStat(FirstSale(rs, merchantId, e.0).value).(count := Sold(rs, merchantId, e.0))
  {
    var freq := ItemFrequency(rs, merchantId);
    FrequencyKeys(rs, merchantId);
    assert e in multiset(Ranked(rs, merchantId));
    EntryLookup(freq, e);
    FrequencyLookup(rs, merchantId, e.0);
  }

  /** Every sold item is ranked. */
  lemma RankedCovers(rs: seq<Record>, merchantId: string, id: string)
    requires Sold(rs, merchantId, id) > 0
    ensures id in Keys(Ranked(rs, merchantId))
  {
    var freq := ItemFrequency(rs, merchantId);
    var s := Ranked(rs, merchantId);
    FrequencyLookup(rs, merchantId, id);
    var e := (id, Lookup(freq, id).value);
    assert e in multiset(s);
    var p :| 0 <= p < |s| && s[p] == e;
    assert Keys(s)[p] == id;
  }

  /**
   * Each listed item's count is its number of sales, its name and price
   * those of its first sale and its revenue the price times the count to
   * cents.
   */
  lemma TopItemsCorrect(rs: seq<Record>, merchantId: string, limit: int)
    ensures forall t :: t in TopItemsFrom(rs, merchantId, limit) ==> t.count == Sold(rs, merchantId, t.id) > 0
    ensures forall t :: t in TopItemsFrom(rs, merchantId, limit) ==>
      var first := FirstStat(FirstSale(rs, merchantId, t.id).value);
      t.name == first.name && t.price == first.price && t.revenue == Revenue(t.price, t.count)
  {
    var s := Ranked(rs, merchantId);
    var ts := TopItemsFrom(rs, merchantId, limit);
    forall t | t in ts
      ensures t.count == Sold(rs, merchantId, t.id) > 0
      ensures t.name == FirstStat(FirstSale(rs, merchantId, t.id).value).name
      ensures t.price == FirstStat(FirstSale(rs, merchantId, t.id).value).price
      ensures t.revenue == Revenue(t.price, t.count)
    {
      var i :| 0 <= i < |ts| && ts[i] == t;
      TopItemAt(rs, merchantId, limit, i);
      RankedEntry(rs, merchantId, s[i]);
    }
  }

  /**
   * The list holds `limit` items, or all of them when fewer were sold; a
   * negative `limit` drops that many from the end.
   */
  lemma TopItemsCount(rs: seq<Record>, merchantId: string, limit: int)
    ensures var n := |SoldIds(rs, merchantId)|;
      |TopItemsFrom(rs, merchantId, limit)| == if limit >= 0 then Min(limit, n) else Max(n + limit, 0)
  {
    RankedUnique(rs, merchantId);
  }

  /** No item is listed twice. */
  lemma TopItemsDistinct(rs: seq<Record>, merchantId: string, limit: int)
    ensures var ts := TopItemsFrom(rs, merchantId, limit);
      forall i, j :: 0 <= i < j < |ts| ==> ts[i].id != ts[j].id
  {
    var s := Ranked(rs, merchantId);
    var ts := TopItemsFrom(rs, merchantId, limit);
    RankedUnique(rs, merchantId);
    forall i, j | 0 <= i < j < |ts| ensures ts[i].id != ts[j].id {
      TopItemAt(rs, merchantId, limit, i);
      TopItemAt(rs, merchantId, limit, j);
    }
  }

  /** The `i`-th listed item is the `i`-th ranked entry. */
  lemma TopItemAt(rs: seq<Record>, merchantId: string, limit: int, i: nat)
    requires i < |TopItemsFrom(rs, merchantId, limit)|
    ensures i < |Ranked(rs, merchantId)|
    ensures TopItemsFrom(rs, merchantId, limit)[i] == ToTopItem(Ranked(rs, merchantId)[i])
  {
    var s := Ranked(rs, merchantId);
    assert Slice(s, limit)[i] == s[i];
  }

  /**
   * The list runs from the best seller down, and no item left out sold more
   * than any item listed.
   */
  lemma TopItemsBest(rs: seq<Record>, merchantId: string, limit: int)
    ensures var ts := TopItemsFrom(rs, merchantId, limit);
      && (forall i, j :: 0 <= i < j < |ts| ==> ts[i].count >= ts[j].count)
      && (forall id, i :: Sold(rs, merchantId, id) > 0 && (forall k :: 0 <= k < |ts| ==> ts[k].id != id) && 0 <= i < |ts| ==>
            Sold(rs, merchantId, id) <= ts[i].count)
  {
    var s := Ranked(rs, merchantId);
    var ts := TopItemsFrom(rs, merchantId, limit);
    GreaterIsStrictTotalOrder();
    SortBySorted(ItemFrequency(rs, merchantId), CountOf, Greater);
    forall i | 0 <= i < |ts| ensures i < |s| && ts[i] == ToTopItem(s[i]) {
      TopItemAt(rs, merchantId, limit, i);
    }
    forall i, j | 0 <= i < j < |ts| ensures ts[i].count >= ts[j].count {
      assert !Greater(CountOf(s[j]), CountOf(s[i]));
    }
    forall id, i | Sold(rs, merchantId, id) > 0 && (forall k :: 0 <= k < |ts| ==> ts[k].id != id) && 0 <= i < |ts|
      ensures Sold(rs, merchantId, id) <= ts[i].count
    {
      RankedCovers(rs, merchantId, id);
      var p :| 0 <= p < |s| && Keys(s)[p] == id;
      RankedEntry(rs, merchantId, s[p]);
      assert p >= |ts|;
      assert !Greater(CountOf(s[p]), CountOf(s[i]));
    }
  }

  /**
   * Items with the same count keep their order of first sale: the sort is
   * stable and `itemFrequency` lists the items in order of first sale.
   */
  lemma RankedTies(rs: seq<Record>, merchantId: string, count: int)
    ensures Keys(ItemFrequency(rs, merchantId)) == SoldIds(rs, merchantId)
    ensures WithKey(Ranked(rs, merchantId), CountOf, count) == WithKey(ItemFrequency(rs, merchantId), CountOf, count)
  {
    FrequencyKeys(rs, merchantId);
    SortByStable(ItemFrequency(rs, merchantId), CountOf, Greater, count);
  }
}
