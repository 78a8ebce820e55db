/**
 * `Array.prototype.sort` with a comparator, which is stable: elements the
 * comparator calls equal keep their order. The comparators of the engine
 * compare one key of each element; `SortBy(s, key, lt)` puts `x` before `y`
 * when `lt(key(x), key(y))` and otherwise keeps the input order.
 * `localeCompare` is modelled as code-point order (`StrLt`).
 */
module StableSort {

  ghost predicate StrictTotalOrder<K(!new)>(lt: (K, K) -> bool) {
    && (forall a :: !lt(a, a))
    && (forall a, b, c :: lt(a, b) && lt(b, c) ==> lt(a, c))
    && (forall a, b :: a != b ==> lt(a, b) || lt(b, a))
  }

  /** No element is placed after one whose key it should precede. */
  ghost predicate SortedBy<T, K>(s: seq<T>, key: T -> K, lt: (K, K) -> bool) {
    forall i, j :: 0 <= i < j < |s| ==> !lt(key(s[j]), key(s[i]))
  }

  /** The elements whose key is `k`, in order. */
  function WithKey<T, K(==)>(s: seq<T>, key: T -> K, k: K): seq<T> {
    if |s| == 0 then []
    else (if key(s[0]) == k then [s[0]] else []) + WithKey(s[1..], key, k)
  }

  /** Insert `x` before the first element whose key `x`'s key does not follow. */
  function Insert<T, K>(x: T, s: seq<T>, key: T -> K, lt: (K, K) -> bool): (r: seq<T>)
    ensures |r| == |s| + 1
    ensures multiset(r) == multiset(s) + multiset{x}
  {
    if |s| == 0 || !lt(key(s[0]), key(x)) then [x] + s
    else
      var r := [s[0]] + Insert(x, s[1..], key, lt);
      assert s == [s[0]] + s[1..];
      r
  }

  /** Stable insertion sort. */
  function SortBy<T, K>(s: seq<T>, key: T -> K, lt: (K, K) -> bool): (r: seq<T>)
    ensures |r| == |s|
    ensures multiset(r) == multiset(s)
  {
    if |s| == 0 then []
    else
      var r := Insert(s[0], SortBy(s[1..], key, lt), key, lt);
      assert s == [s[0]] + s[1..];
      r
  }

  lemma {:induction false} InsertSorted<T, K(!new)>(x: T, s: seq<T>, key: T -> K, lt: (K, K) -> bool)
    requires StrictTotalOrder(lt) && SortedBy(s, key, lt)
    ensures SortedBy(Insert(x, s, key, lt), key, lt)
  {
    if |s| == 0 || !lt(key(s[0]), key(x)) {
      var r := [x] + s;
      forall j | 1 <= j < |r| ensures !lt(key(r[j]), key(x)) {
        if j > 1 {
          assert !lt(key(s[j - 1]), key(s[0]));
          if key(s[j - 1]) != key(s[0]) {
            assert lt(key(s[0]), key(s[j - 1]));
          }
        }
      }
    } else {
      InsertSorted(x, s[1..], key, lt);
      var t := Insert(x, s[1..], key, lt);
      assert multiset(t) == multiset(s[1..]) + multiset{x};
      forall j | 0 <= j < |t| ensures !lt(key(t[j]), key(s[0])) {
        assert t[j] in multiset(t);
        if t[j] != x {
          assert t[j] in multiset(s[1..]);
          var m :| 0 <= m < |s[1..]| && s[1..][m] == t[j];
          assert s[m + 1] == t[j];
        }
      }
    }
  }

  /** The result of `SortBy` is sorted when `lt` is a strict total order. */
  lemma {:induction false} SortBySorted<T, K(!new)>(s: seq<T>, key: T -> K, lt: (K, K) -> bool)
    requires StrictTotalOrder(lt)
    ensures SortedBy(SortBy(s, key, lt), key, lt)
  {
    if |s| > 0 {
      SortBySorted(s[1..], key, lt);
      InsertSorted(s[0], SortBy(s[1..], key, lt), key, lt);
    }
  }

  lemma {:induction false} InsertWithKey<T, K(!new)>(x: T, s: seq<T>, key: T -> K, lt: (K, K) -> bool, k: K)
    requires forall a :: !lt(a, a)
    ensures WithKey(Insert(x, s, key, lt), key, k) == (if key(x) == k then [x] else []) + WithKey(s, key, k)
  {
    if |s| == 0 || !lt(key(s[0]), key(x)) {
      assert ([x] + s)[1..] == s;
    } else {
      InsertWithKey(x, s[1..], key, lt, k);
      var r := [s[0]] + Insert(x, s[1..], key, lt);
      assert r[1..] == Insert(x, s[1..], key, lt);
      assert !(key(x) == k && key(s[0]) == k);
    }
  }

  /** Stability: among elements with equal keys the input order is kept. */
  lemma {:induction false} SortByStable<T, K(!new)>(s: seq<T>, key: T -> K, lt: (K, K) -> bool, k: K)
    requires forall a :: !lt(a, a)
    ensures WithKey(SortBy(s, key, lt), key, k) == WithKey(s, key, k)
  {
    if |s| > 0 {
      SortByStable(s[1..], key, lt, k);
      InsertWithKey(s[0], SortBy(s[1..], key, lt), key, lt, k);
    }
  }

  /** With distinct keys, a sorted sequence is strictly ascending. */
  lemma SortedDistinctAscending<T, K(!new)>(s: seq<T>, key: T -> K, lt: (K, K) -> bool, i: int, j: int)
    requires StrictTotalOrder(lt) && SortedBy(s, key, lt)
    requires 0 <= i < j < |s| && key(s[i]) != key(s[j])
    ensures lt(key(s[i]), key(s[j]))
  {
  }

  // ---------------------------------------------------------------------------
  // Orders used by the engine

  /** Ascending numbers: `a - b` as a comparator. */
  predicate Less(a: int, b: int) {
    a < b
  }

  /** Descending numbers: `b - a` as a comparator. */
  predicate Greater(a: int, b: int) {
    a > b
  }

  /** Descending JavaScript numbers: `b - a` on finite values. */
  predicate GreaterReal(a: real, b: real) {
    a > b
  }

  /** `a.localeCompare(b) < 0`, read as lexicographic order of code points. */
  predicate StrLt(a: string, b: string) {
    if |a| == 0 then |b| > 0
    else if |b| == 0 then false
    else if a[0] != b[0] then a[0] < b[0]
    else StrLt(a[1..], b[1..])
  }

  lemma {:induction false} StrLtIrreflexive(a: string)
    ensures !StrLt(a, a)
  {
    if |a| > 0 {
      StrLtIrreflexive(a[1..]);
    }
  }

  lemma {:induction false} StrLtTransitive(a: string, b: string, c: string)
    requires StrLt(a, b) && StrLt(b, c)
    ensures StrLt(a, c)
  {
    if |a| > 0 && |b| > 0 && |c| > 0 && a[0] == b[0] && b[0] == c[0] {
      StrLtTransitive(a[1..], b[1..], c[1..]);
    }
  }

  lemma {:induction false} StrLtTotal(a: string, b: string)
    requires a != b
    ensures StrLt(a, b) || StrLt(b, a)
  {
    if |a| > 0 && |b| > 0 && a[0] == b[0] {
      assert a == [a[0]] + a[1..] && b == [b[0]] + b[1..];
      StrLtTotal(a[1..], b[1..]);
    }
  }

  lemma StrLtIsStrictTotalOrder()
    ensures StrictTotalOrder(StrLt)
  {
    forall a ensures !StrLt(a, a) {
      StrLtIrreflexive(a);
    }
    forall a, b, c | StrLt(a, b) && StrLt(b, c) ensures StrLt(a, c) {
      StrLtTransitive(a, b, c);
    }
    forall a, b | a != b ensures StrLt(a, b) || StrLt(b, a) {
      StrLtTotal(a, b);
    }
  }

  lemma LessIsStrictTotalOrder()
    ensures StrictTotalOrder(Less)
  {
  }

  lemma GreaterIsStrictTotalOrder()
    ensures StrictTotalOrder(Greater)
  {
  }

  lemma GreaterRealIsStrictTotalOrder()
    ensures StrictTotalOrder(GreaterReal)
  {
  }
}
