/**
 * A plain JavaScript object used as a dictionary (`const m = {}; m[k] = v`),
 * as an association list in insertion order: assigning to a key that exists
 * keeps its position, a new key goes at the end. `Object.entries`,
 * `Object.keys` and `Object.values` read the list in this order.
 */
module AssocList {
  import opened Wrappers

  /** `Object.keys(d)`. */
  function Keys<K, V>(d: seq<(K, V)>): (ks: seq<K>)
    ensures |ks| == |d|
    ensures forall i :: 0 <= i < |d| ==> ks[i] == d[i].0
  {
    if |d| == 0 then [] else [d[0].0] + Keys(d[1..])
  }

  /** `Object.values(d)`. */
  function Values<K, V>(d: seq<(K, V)>): (vs: seq<V>)
    ensures |vs| == |d|
    ensures forall i :: 0 <= i < |d| ==> vs[i] == d[i].1
  {
    if |d| == 0 then [] else [d[0].1] + Values(d[1..])
  }

  /** No key occurs twice, as in any JavaScript object. */
  ghost predicate UniqueKeys<K, V>(d: seq<(K, V)>) {
    forall i, j :: 0 <= i < j < |d| ==> d[i].0 != d[j].0
  }

  /** `d[k]`: the value stored under `k`, None for undefined. */
  function Lookup<K(==), V>(d: seq<(K, V)>, k: K): (r: Option<V>)
    ensures r.Some? <==> k in Keys(d)
    ensures r.Some? ==> (k, r.value) in d
  {
    if |d| == 0 then None
    else if d[0].0 == k then Some(d[0].1)
    else Lookup(d[1..], k)
  }

  /** `d[k] = v`. */
  function Put<K(==, !new), V>(d: seq<(K, V)>, k: K, v: V): (r: seq<(K, V)>)
    ensures Lookup(r, k) == Some(v)
    ensures forall k' :: k' != k ==> Lookup(r, k') == Lookup(d, k')
  {
    if |d| == 0 then [(k, v)]
    else if d[0].0 == k then [(k, v)] + d[1..]
    else [d[0]] + Put(d[1..], k, v)
  }

  /** Assigning keeps the position of an existing key and appends a new one. */
  lemma {:induction false} PutKeys<K(!new), V>(d: seq<(K, V)>, k: K, v: V)
    ensures Keys(Put(d, k, v)) == if k in Keys(d) then Keys(d) else Keys(d) + [k]
  {
    if |d| > 0 && d[0].0 != k {
      PutKeys(d[1..], k, v);
      assert Keys(d) == [d[0].0] + Keys(d[1..]);
      assert Keys(Put(d, k, v)) == [d[0].0] + Keys(Put(d[1..], k, v));
    } else if |d| > 0 {
      assert Keys(Put(d, k, v)) == [k] + Keys(d[1..]);
      assert Keys(d) == [k] + Keys(d[1..]);
    }
  }

  /** `if (!d[k]) d[k] = init; d[k] = f(d[k])`: create the entry if missing, then update it. */
  function Upsert<K(==, !new), V>(d: seq<(K, V)>, k: K, init: V, f: V -> V): seq<(K, V)> {
    var created := if Lookup(d, k).None? then Put(d, k, init) else d;
    Put(created, k, f(Lookup(created, k).value))
  }

  /** Upserting updates the entry of `k` only, from `init` when there was none. */
  lemma UpsertLookup<K(!new), V>(d: seq<(K, V)>, k: K, init: V, f: V -> V, k': K)
    ensures Lookup(Upsert(d, k, init, f), k') ==
      if k' == k then Some(f(if Lookup(d, k).Some? then Lookup(d, k).value else init)) else Lookup(d, k')
  {
  }

  /** Upserting appends a new key and keeps the keys unique. */
  lemma UpsertKeys<K(!new), V>(d: seq<(K, V)>, k: K, init: V, f: V -> V)
    ensures Keys(Upsert(d, k, init, f)) == if k in Keys(d) then Keys(d) else Keys(d) + [k]
    ensures UniqueKeys(d) ==> UniqueKeys(Upsert(d, k, init, f))
  {
    var created := if Lookup(d, k).None? then Put(d, k, init) else d;
    if Lookup(d, k).None? {
      PutKeys(d, k, init);
      if UniqueKeys(d) {
        PutUnique(d, k, init);
      }
    }
    var v := f(Lookup(created, k).value);
    PutKeys(created, k, v);
    if UniqueKeys(created) {
      PutUnique(created, k, v);
    }
  }

  /** A lookup in a list with unique keys finds the entry at the key's position. */
  lemma {:induction false} LookupAt<K, V>(d: seq<(K, V)>, i: nat)
    requires UniqueKeys(d) && i < |d|
    ensures Lookup(d, d[i].0) == Some(d[i].1)
  {
    if i > 0 {
      LookupAt(d[1..], i - 1);
    }
  }

  /** Assigning keeps the keys unique. */
  lemma {:induction false} PutUnique<K(!new), V>(d: seq<(K, V)>, k: K, v: V)
    requires UniqueKeys(d)
    ensures UniqueKeys(Put(d, k, v))
  {
    var r := Put(d, k, v);
    PutKeys(d, k, v);
    forall i, j | 0 <= i < j < |r| ensures r[i].0 != r[j].0 {
      assert Keys(r)[i] == r[i].0 && Keys(r)[j] == r[j].0;
      if k !in Keys(d) && j == |d| {
        assert Keys(d)[i] == d[i].0;
      } else {
        assert Keys(d)[i] == d[i].0 && Keys(d)[j] == d[j].0;
      }
    }
  }

  /** In a list with unique keys an entry is found under its own key. */
  lemma EntryLookup<K, V>(d: seq<(K, V)>, e: (K, V))
    requires UniqueKeys(d) && e in d
    ensures Lookup(d, e.0) == Some(e.1)
  {
    var i :| 0 <= i < |d| && d[i] == e;
    LookupAt(d, i);
  }

  lemma RemoveAtMultiset<T>(a: seq<T>, p: nat)
    requires p < |a|
    ensures multiset(a[..p] + a[p + 1..]) == multiset(a) - multiset{a[p]}
  {
    assert a == a[..p] + [a[p]] + a[p + 1..];
  }

  /** Removing one entry keeps the keys unique, and the other keys differ from its key. */
  lemma RemoveAtUnique<K, V>(a: seq<(K, V)>, p: nat)
    requires UniqueKeys(a) && p < |a|
    ensures UniqueKeys(a[..p] + a[p + 1..])
    ensures forall e :: e in a[..p] + a[p + 1..] ==> e.0 != a[p].0
  {
    var a' := a[..p] + a[p + 1..];
    forall q | 0 <= q < |a'| ensures a'[q] == a[if q < p then q else q + 1] {
    }
  }

  /** Reordering the entries of a list with unique keys keeps them unique. */
  lemma {:induction false} PermutationUniqueKeys<K, V>(a: seq<(K, V)>, b: seq<(K, V)>)
    requires UniqueKeys(a) && multiset(a) == multiset(b)
    ensures UniqueKeys(b)
  {
    if |b| > 0 {
      var x := b[0];
      assert x in multiset(a) by {
        assert b == [x] + b[1..];
      }
      var p :| 0 <= p < |a| && a[p] == x;
      var a' := a[..p] + a[p + 1..];
      assert multiset(a') == multiset(b[1..]) by {
        RemoveAtMultiset(a, p);
        RemoveAtMultiset(b, 0);
        assert b[..0] + b[1..] == b[1..];
      }
      RemoveAtUnique(a, p);
      PermutationUniqueKeys(a', b[1..]);
      forall i, j | 0 <= i < j < |b| ensures b[i].0 != b[j].0 {
        assert b[j] == b[1..][j - 1];
        if i == 0 {
          assert b[j] in multiset(a');
        } else {
          assert b[i] == b[1..][i - 1];
        }
      }
    }
  }
}
