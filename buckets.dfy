/**
 * The grouping idiom of the engine: walk the records in order and, for each
 * one that has a key, do `m[key] = (m[key] || 0) + amount`. The sales trend
 * sums `order_value` per date key this way and the cuisine report counts
 * orders per cuisine (amount 1). `Tally` is that walk, for any key and
 * amount; the lemmas say what each entry of the result holds.
 */
module Buckets {
  import opened Wrappers
  import opened JsValues
  import opened AssocList

  /** `m[k] = (m[k] || 0) + v`. */
  function AddTo<K(==, !new)>(m: seq<(K, Num)>, k: K, v: Num): seq<(K, Num)> {
    Put(m, k, Add(OrZero(Lookup(m, k)), v))
  }

  /** One iteration: a record without a key leaves the map alone. */
  function TallyStep<T, K(==, !new)>(m: seq<(K, Num)>, x: T, key: T -> Option<K>, amount: T -> Num): seq<(K, Num)> {
    match key(x)
    case None => m
    case Some(k) => AddTo(m, k, amount(x))
  }

  /** The map after the walk over `xs`, starting from `{}`. */
  function Tally<T, K(==, !new)>(xs: seq<T>, key: T -> Option<K>, amount: T -> Num): seq<(K, Num)> {
    if |xs| == 0 then []
    else TallyStep(Tally(xs[..|xs| - 1], key, amount), xs[|xs| - 1], key, amount)
  }

  /** Record `x` falls in bucket `k`. */
  predicate InBucket<T, K(==)>(x: T, key: T -> Option<K>, k: K) {
    key(x) == Some(k)
  }

  /** How many of `xs` fall in bucket `k`. */
  function Hits<T, K(==)>(xs: seq<T>, key: T -> Option<K>, k: K): nat {
    if |xs| == 0 then 0
    else Hits(xs[..|xs| - 1], key, k) + (if InBucket(xs[|xs| - 1], key, k) then 1 else 0)
  }

  /** A finite amount as a real; a NaN amount counts 0 here. */
  function RealAmount<T>(x: T, amount: T -> Num): real {
    var a := amount(x);
    if a.Fin? then a.val else 0.0
  }

  /** The sum of the amounts of the records of `xs` that fall in bucket `k`. */
  function Total<T, K(==)>(xs: seq<T>, key: T -> Option<K>, amount: T -> Num, k: K): real {
    if |xs| == 0 then 0.0
    else Total(xs[..|xs| - 1], key, amount, k) + (if InBucket(xs[|xs| - 1], key, k) then RealAmount(xs[|xs| - 1], amount) else 0.0)
  }

  /** Every record that has a key has a finite amount. */
  ghost predicate FiniteAmounts<T, K>(xs: seq<T>, key: T -> Option<K>, amount: T -> Num) {
    forall i :: 0 <= i < |xs| && key(xs[i]).Some? ==> amount(xs[i]).Fin?
  }

  /** The walk over one more record is one more step. */
  lemma TallyNext<T, K(!new)>(xs: seq<T>, i: nat, key: T -> Option<K>, amount: T -> Num)
    requires i < |xs|
    ensures Tally(xs[..i + 1], key, amount) == TallyStep(Tally(xs[..i], key, amount), xs[i], key, amount)
  {
    assert xs[..i + 1][..i] == xs[..i];
  }

  /** Adding to bucket `k0` changes that bucket only. */
  lemma LookupAddTo<K(!new)>(m: seq<(K, Num)>, k0: K, v: Num, k: K)
    ensures Lookup(AddTo(m, k0, v), k) == if k == k0 then Some(Add(OrZero(Lookup(m, k0)), v)) else Lookup(m, k)
  {
  }

  /** A bucket nothing fell in sums to zero. */
  lemma {:induction false} TotalNoHits<T, K>(xs: seq<T>, key: T -> Option<K>, amount: T -> Num, k: K)
    ensures Hits(xs, key, k) == 0 ==> Total(xs, key, amount, k) == 0.0
  {
    if |xs| > 0 {
      TotalNoHits(xs[..|xs| - 1], key, amount, k);
    }
  }

  /** The keys of the map are unique, as those of a JavaScript object. */
  lemma {:induction false} TallyUnique<T, K(!new)>(xs: seq<T>, key: T -> Option<K>, amount: T -> Num)
    ensures UniqueKeys(Tally(xs, key, amount))
  {
    if |xs| > 0 {
      var m := Tally(xs[..|xs| - 1], key, amount);
      TallyUnique(xs[..|xs| - 1], key, amount);
      var x := xs[|xs| - 1];
      if key(x).Some? {
        PutUnique(m, key(x).value, Add(OrZero(Lookup(m, key(x).value)), amount(x)));
      }
    }
  }

  /** One step moves the bucket of its record by the record's amount, and no other bucket. */
  lemma TallyStepLookup<T, K(!new)>(m: seq<(K, Num)>, x: T, key: T -> Option<K>, amount: T -> Num, k: K, sum: real)
    requires Lookup(m, k).Some? ==> Lookup(m, k) == Some(Fin(sum))
    requires Lookup(m, k).None? ==> sum == 0.0
    requires key(x).Some? ==> amount(x).Fin?
    ensures !InBucket(x, key, k) ==> Lookup(TallyStep(m, x, key, amount), k) == Lookup(m, k)
    ensures InBucket(x, key, k) ==> Lookup(TallyStep(m, x, key, amount), k) == Some(Fin(sum + RealAmount(x, amount)))
  {
    if key(x).Some? {
      var k0 := key(x).value;
      LookupAddTo(m, k0, amount(x), k);
      if k0 == k {
        assert OrZero(Lookup(m, k)) == Fin(sum);
      }
    }
  }

  /**
   * Each bucket holds the sum of the amounts of exactly the records with its
   * key, and a bucket exists iff some record has that key.
   */
  lemma {:induction false} TallyLookup<T, K(!new)>(xs: seq<T>, key: T -> Option<K>, amount: T -> Num, k: K)
    requires FiniteAmounts(xs, key, amount)
    ensures Lookup(Tally(xs, key, amount), k) ==
      if Hits(xs, key, k) > 0 then Some(Fin(Total(xs, key, amount, k))) else None
  {
    if |xs| > 0 {
      var prefix := xs[..|xs| - 1];
      var x := xs[|xs| - 1];
      FiniteAmountsPrefix(xs, |xs| - 1, key, amount);
      TallyLookup(prefix, key, amount, k);
      TotalNoHits(prefix, key, amount, k);
      assert key(x).Some? ==> amount(x).Fin? by {
        assert x == xs[|xs| - 1];
      }
      var m := Tally(prefix, key, amount);
      var sum := Total(prefix, key, amount, k);
      TallyStepLookup(m, x, key, amount, k, sum);
      if InBucket(x, key, k) {
        assert Hits(xs, key, k) > 0;
        assert Total(xs, key, amount, k) == sum + RealAmount(x, amount);
      } else {
        assert Hits(xs, key, k) == Hits(prefix, key, k);
        assert Total(xs, key, amount, k) == sum;
      }
    }
  }

  /**
   * Where bucket `k` last restarts: just past the last record of `xs` in
   * bucket `k` whose amount is NaN, or 0 when there is none.
   */
  function NaNCut<T, K(==)>(xs: seq<T>, key: T -> Option<K>, amount: T -> Num, k: K): (c: nat)
    ensures c <= |xs|
    ensures c > 0 ==> InBucket(xs[c - 1], key, k) && amount(xs[c - 1]).NaN?
  {
    if |xs| == 0 then 0
    else if InBucket(xs[|xs| - 1], key, k) && amount(xs[|xs| - 1]).NaN? then |xs|
    else NaNCut(xs[..|xs| - 1], key, amount, k)
  }

  /** No record of bucket `k` after the cut has a NaN amount. */
  lemma {:induction false} NaNCutIsLast<T, K>(xs: seq<T>, key: T -> Option<K>, amount: T -> Num, k: K, i: nat)
    requires NaNCut(xs, key, amount, k) <= i < |xs| && InBucket(xs[i], key, k)
    ensures amount(xs[i]).Fin?
  {
    var prefix := xs[..|xs| - 1];
    if i < |xs| - 1 {
      assert prefix[i] == xs[i];
      NaNCutIsLast(prefix, key, amount, k, i);
    }
  }

  /** Finite amounts never restart a bucket. */
  lemma NaNCutFinite<T, K>(xs: seq<T>, key: T -> Option<K>, amount: T -> Num, k: K)
    requires FiniteAmounts(xs, key, amount)
    ensures NaNCut(xs, key, amount, k) == 0
  {
  }

  /** A bucket one record falls in has a hit. */
  lemma {:induction false} HitsPositive<T, K>(xs: seq<T>, key: T -> Option<K>, k: K, i: nat)
    requires i < |xs| && InBucket(xs[i], key, k)
    ensures Hits(xs, key, k) > 0
  {
    if i < |xs| - 1 {
      assert xs[..|xs| - 1][i] == xs[i];
      HitsPositive(xs[..|xs| - 1], key, k, i);
    }
  }

  /** `Hits` and `Total` over one more record. */
  lemma HitsSnoc<T, K>(s: seq<T>, x: T, key: T -> Option<K>, amount: T -> Num, k: K)
    ensures Hits(s + [x], key, k) == Hits(s, key, k) + (if InBucket(x, key, k) then 1 else 0)
    ensures Total(s + [x], key, amount, k) == Total(s, key, amount, k) + (if InBucket(x, key, k) then RealAmount(x, amount) else 0.0)
  {
    assert (s + [x])[..|s|] == s;
  }

  /**
   * What a bucket holds in general. `(m[k] || 0)` turns a NaN bucket back
   * into 0, so a record with a NaN amount makes its bucket NaN and the next
   * record of that bucket starts it afresh: the bucket is NaN when its last
   * record had a NaN amount, and otherwise the sum of the amounts of its
   * records after the last one with a NaN amount. It exists iff some record
   * has its key.
   */
  lemma {:induction false} TallyBucket<T, K(!new)>(xs: seq<T>, key: T -> Option<K>, amount: T -> Num, k: K)
    ensures var c := NaNCut(xs, key, amount, k);
      Lookup(Tally(xs, key, amount), k) ==
        if Hits(xs, key, k) == 0 then None
        else if Hits(xs[c..], key, k) == 0 then Some(NaN)
        else Some(Fin(Total(xs[c..], key, amount, k)))
  {
    if |xs| > 0 {
      var prefix := xs[..|xs| - 1];
      var x := xs[|xs| - 1];
      assert xs == prefix + [x];
      TallyBucket(prefix, key, amount, k);
      StepLookup(Tally(prefix, key, amount), x, key, amount, k);
      BucketSnoc(prefix, x, key, amount, k);
    }
  }

  /** The right-hand side of `TallyBucket`. */
  function BucketOf<T, K(==)>(xs: seq<T>, key: T -> Option<K>, amount: T -> Num, k: K): Option<Num> {
    var c := NaNCut(xs, key, amount, k);
    if Hits(xs, key, k) == 0 then None
    else if Hits(xs[c..], key, k) == 0 then Some(NaN)
    else Some(Fin(Total(xs[c..], key, amount, k)))
  }

  /** One step of the walk, seen from bucket `k`. */
  lemma StepLookup<T, K(!new)>(m: seq<(K, Num)>, x: T, key: T -> Option<K>, amount: T -> Num, k: K)
    ensures Lookup(TallyStep(m, x, key, amount), k) ==
      if InBucket(x, key, k) then Some(Add(OrZero(Lookup(m, k)), amount(x))) else Lookup(m, k)
  {
    if key(x).Some? {
      LookupAddTo(m, key(x).value, amount(x), k);
    }
  }

  /** `BucketOf` follows the same step as the bucket itself. */
  lemma BucketSnoc<T, K(!new)>(p: seq<T>, x: T, key: T -> Option<K>, amount: T -> Num, k: K)
    ensures BucketOf(p + [x], key, amount, k) ==
      if InBucket(x, key, k) then Some(Add(OrZero(BucketOf(p, key, amount, k)), amount(x))) else BucketOf(p, key, amount, k)
  {
    var xs := p + [x];
    var cp := NaNCut(p, key, amount, k);
    assert xs[..|xs| - 1] == p;
    HitsSnoc(p, x, key, amount, k);
    if InBucket(x, key, k) && amount(x).NaN? {
      assert NaNCut(xs, key, amount, k) == |xs|;
    } else {
      assert NaNCut(xs, key, amount, k) == cp;
      assert xs[cp..] == p[cp..] + [x];
      HitsSnoc(p[cp..], x, key, amount, k);
      if InBucket(x, key, k) {
        BucketSnocHit(p, key, amount, k);
      }
    }
  }

  /** Before a finite hit, a bucket that is missing or NaN sums to zero after its cut. */
  lemma BucketSnocHit<T, K>(p: seq<T>, key: T -> Option<K>, amount: T -> Num, k: K)
    ensures var cp := NaNCut(p, key, amount, k);
      Hits(p[cp..], key, k) == 0 ==> Total(p[cp..], key, amount, k) == 0.0
    ensures var cp := NaNCut(p, key, amount, k);
      Hits(p, key, k) == 0 ==> Hits(p[cp..], key, k) == 0
  {
    var cp := NaNCut(p, key, amount, k);
    TotalNoHits(p[cp..], key, amount, k);
    if cp > 0 {
      HitsPositive(p, key, k, cp - 1);
    }
    assert Hits(p, key, k) == 0 ==> p[cp..] == p;
  }

  lemma FiniteAmountsPrefix<T, K>(xs: seq<T>, n: nat, key: T -> Option<K>, amount: T -> Num)
    requires FiniteAmounts(xs, key, amount) && n <= |xs|
    ensures FiniteAmounts(xs[..n], key, amount)
  {
    forall i | 0 <= i < n && key(xs[..n][i]).Some? ensures amount(xs[..n][i]).Fin? {
      assert xs[..n][i] == xs[i];
    }
  }

  // ---------------------------------------------------------------------------
  // Counting: every record adds one

  /** The amount of a count: each record adds one. */
  function One<T>(x: T): Num {
    Fin(1.0)
  }

  /** How many of `xs` have a key at all. */
  function Keyed<T, K>(xs: seq<T>, key: T -> Option<K>): nat {
    if |xs| == 0 then 0
    else Keyed(xs[..|xs| - 1], key) + (if key(xs[|xs| - 1]).Some? then 1 else 0)
  }

  /** `Object.values(m).reduce((sum, val) => sum + val, 0)`. */
  function SumValues<K>(m: seq<(K, Num)>): Num {
    if |m| == 0 then Fin(0.0) else Add(m[0].1, SumValues(m[1..]))
  }

  /** The sum does not depend on the order of the entries. */
  lemma {:induction false} SumValuesPermutation<K>(a: seq<(K, Num)>, b: seq<(K, Num)>)
    requires multiset(a) == multiset(b)
    ensures SumValues(a) == SumValues(b)
    decreases |a|
  {
    if |a| > 0 {
      var x := a[0];
      assert x in multiset(b) by { assert x in multiset(a); }
      var p :| 0 <= p < |b| && b[p] == x;
      var rest := b[..p] + b[p + 1..];
      RemoveAtMultiset(b, p);
      assert a == [x] + a[1..];
      assert multiset(a[1..]) == multiset(rest);
      SumValuesPermutation(a[1..], rest);
      SumValuesRemove(b, p);
    }
  }

  /** Taking the `p`-th entry out and adding it back gives the same sum. */
  lemma {:induction false} SumValuesRemove<K>(b: seq<(K, Num)>, p: nat)
    requires p < |b|
    ensures SumValues(b) == Add(b[p].1, SumValues(b[..p] + b[p + 1..]))
  {
    if p == 0 {
      assert b[..0] + b[1..] == b[1..];
    } else {
      var tail := b[1..];
      SumValuesRemove(tail, p - 1);
      assert b[..p] + b[p + 1..] == [b[0]] + (tail[..p - 1] + tail[p..]);
      AddSwap(b[0].1, b[p].1, SumValues(tail[..p - 1] + tail[p..]));
    }
  }

  lemma AddSwap(a: Num, b: Num, c: Num)
    ensures Add(a, Add(b, c)) == Add(b, Add(a, c))
  {
  }

  /** Assigning `v` to `k` moves the sum by `v` less the value it replaces. */
  lemma {:induction false} SumValuesPut<K(!new)>(m: seq<(K, Num)>, k: K, v: real)
    requires SumValues(m).Fin?
    ensures SumValues(Put(m, k, Fin(v))) == Fin(SumValues(m).val - OrZero(Lookup(m, k)).val + v)
  {
    if |m| > 0 && m[0].0 != k {
      SumValuesPut(m[1..], k, v);
    }
  }

  /** Counting adds one per keyed record to the sum of all buckets. */
  lemma {:induction false} CountSum<T, K(!new)>(xs: seq<T>, key: T -> Option<K>)
    ensures SumValues(Tally(xs, key, One)) == Fin(Keyed(xs, key) as real)
  {
    if |xs| > 0 {
      var prefix := xs[..|xs| - 1];
      var x := xs[|xs| - 1];
      CountSum(prefix, key);
      var m := Tally(prefix, key, One);
      if key(x).Some? {
        CountStep(m, key(x).value);
        assert Tally(xs, key, One) == AddTo(m, key(x).value, Fin(1.0));
        assert Keyed(xs, key) == Keyed(prefix, key) + 1;
      } else {
        assert Tally(xs, key, One) == m;
        assert Keyed(xs, key) == Keyed(prefix, key);
      }
    }
  }

  /** Adding one to a bucket adds one to the sum. */
  lemma CountStep<K(!new)>(m: seq<(K, Num)>, k: K)
    requires SumValues(m).Fin?
    ensures SumValues(AddTo(m, k, Fin(1.0))) == Fin(SumValues(m).val + 1.0)
  {
    SumValuesPut(m, k, OrZero(Lookup(m, k)).val + 1.0);
  }

  /** A count bucket holds the number of records with its key. */
  lemma {:induction false} TotalOfOnes<T, K>(xs: seq<T>, key: T -> Option<K>, k: K)
    ensures Total(xs, key, One, k) == Hits(xs, key, k) as real
  {
    if |xs| > 0 {
      TotalOfOnes(xs[..|xs| - 1], key, k);
    }
  }

  /** No bucket of non-negative amounts exceeds the sum of all of them. */
  lemma {:induction false} ValueWithinSum<K>(m: seq<(K, Num)>, i: nat)
    requires i < |m|
    requires forall j :: 0 <= j < |m| ==> m[j].1.Fin? && m[j].1.val >= 0.0
    ensures SumValues(m).Fin? && 0.0 <= m[i].1.val <= SumValues(m).val
  {
    NonNegativeSum(m[1..]);
    if i > 0 {
      ValueWithinSum(m[1..], i - 1);
    }
  }

  lemma {:induction false} NonNegativeSum<K>(m: seq<(K, Num)>)
    requires forall j :: 0 <= j < |m| ==> m[j].1.Fin? && m[j].1.val >= 0.0
    ensures SumValues(m).Fin? && SumValues(m).val >= 0.0
  {
    if |m| > 0 {
      NonNegativeSum(m[1..]);
    }
  }
}
