/**
 * The `$group` aggregation stage: bucket the elements of a sequence by a key
 * and keep two running sums per bucket. Buckets appear in order of first
 * occurrence of their key.
 */
module Grouping {
  import opened Common
  import opened Sorting

  /** One bucket: its key and the two accumulated sums. */
  datatype Group<K> = Group(key: K, first: int, second: int)

  /** Σ w(x) over the whole sequence, accumulated left to right. */
  function Sum<T>(s: seq<T>, w: T -> int): int
  {
    if s == [] then 0 else Sum(s[..|s| - 1], w) + w(s[|s| - 1])
  }

  /** Σ w(x) over the elements x of `s` whose key is `k`: the reference value of a bucket. */
  function SumWhere<K(==), T>(s: seq<T>, key: T -> K, k: K, w: T -> int): int
  {
    if s == [] then 0
    else SumWhere(s[..|s| - 1], key, k, w) + (if key(s[|s| - 1]) == k then w(s[|s| - 1]) else 0)
  }

  /** Some element of `s` has key `k`. */
  ghost predicate Occurs<K, T>(s: seq<T>, key: T -> K, k: K)
  {
    exists j :: 0 <= j < |s| && key(s[j]) == k
  }

  /** No key labels two buckets. */
  ghost predicate DistinctKeys<K>(groups: seq<Group<K>>)
  {
    forall i, j :: 0 <= i < j < |groups| ==> groups[i].key != groups[j].key
  }

  /** Position of the bucket labelled `k`, or -1. */
  function IndexOfKey<K(==)>(groups: seq<Group<K>>, k: K): (i: int)
    ensures -1 <= i < |groups|
    ensures 0 <= i ==> groups[i].key == k && forall j :: 0 <= j < i ==> groups[j].key != k
    ensures i == -1 ==> forall j :: 0 <= j < |groups| ==> groups[j].key != k
  {
    if groups == [] then -1
    else if groups[0].key == k then 0
    else
      var i := IndexOfKey(groups[1..], k);
      if i == -1 then -1 else i + 1
  }

  /** Adds one element to its bucket, opening a new bucket at the end when its key is new. */
  function Accumulate<K(==), T>(groups: seq<Group<K>>, x: T, key: T -> K, w1: T -> int, w2: T -> int): seq<Group<K>>
  {
    var i := IndexOfKey(groups, key(x));
    if i >= 0 then groups[i := Group(key(x), groups[i].first + w1(x), groups[i].second + w2(x))]
    else groups + [Group(key(x), w1(x), w2(x))]
  }

  /** `$group: { _id: key, first: { $sum: w1 }, second: { $sum: w2 } }`. */
  function GroupBy<K(==), T>(s: seq<T>, key: T -> K, w1: T -> int, w2: T -> int): seq<Group<K>>
  {
    if s == [] then [] else Accumulate(GroupBy(s[..|s| - 1], key, w1, w2), s[|s| - 1], key, w1, w2)
  }

  /** There are never more buckets than elements, and there is a bucket as soon as there is
      an element. */
  lemma {:induction false} GroupBySize<K, T>(s: seq<T>, key: T -> K, w1: T -> int, w2: T -> int)
    ensures |GroupBy(s, key, w1, w2)| <= |s|
    ensures s == [] <==> GroupBy(s, key, w1, w2) == []
  {
    if s != [] {
      GroupBySize(s[..|s| - 1], key, w1, w2);
    }
  }

  /** A key that occurs nowhere contributes nothing. */
  lemma {:induction false} SumWhereAbsent<K, T>(s: seq<T>, key: T -> K, k: K, w: T -> int)
    requires !Occurs(s, key, k)
    ensures SumWhere(s, key, k, w) == 0
  {
    if s != [] {
      var s' := s[..|s| - 1];
      assert !Occurs(s', key, k) by {
        forall j | 0 <= j < |s'| ensures key(s'[j]) != k { assert s'[j] == s[j]; }
      }
      SumWhereAbsent(s', key, k, w);
    }
  }

  /** `groups` is a correct bucketing of `s`: each key of `s` labels exactly one bucket,
      and each bucket carries the sums of its members. */
  ghost predicate Buckets<K, T>(groups: seq<Group<K>>, s: seq<T>, key: T -> K, w1: T -> int, w2: T -> int)
  {
    && DistinctKeys(groups)
    && (forall i :: 0 <= i < |groups| ==> Occurs(s, key, groups[i].key))
    && (forall j :: 0 <= j < |s| ==> exists i :: 0 <= i < |groups| && groups[i].key == key(s[j]))
    && (forall i :: 0 <= i < |groups| ==>
          groups[i].first == SumWhere(s, key, groups[i].key, w1)
          && groups[i].second == SumWhere(s, key, groups[i].key, w2))
  }

  /** Adding one element keeps the keys of the buckets in step with the sequence. */
  lemma AccumulateKeys<K, T>(g: seq<Group<K>>, s: seq<T>, x: T, key: T -> K, w1: T -> int, w2: T -> int)
    requires Buckets(g, s, key, w1, w2)
    ensures var r := Accumulate(g, x, key, w1, w2);
      && DistinctKeys(r)
      && (forall i :: 0 <= i < |r| ==> Occurs(s + [x], key, r[i].key))
      && (forall j :: 0 <= j < |s| + 1 ==> exists i :: 0 <= i < |r| && r[i].key == key((s + [x])[j]))
  {
    AccumulateShape(g, x, key, w1, w2);
    AccumulateOccurs(g, s, x, key, w1, w2);
    AccumulateCovers(g, s, x, key, w1, w2);
  }

  /** Where the new element goes: the existing buckets keep their keys, and the element's
      key labels its old bucket or one new bucket at the end. */
  lemma AccumulateShape<K, T>(g: seq<Group<K>>, x: T, key: T -> K, w1: T -> int, w2: T -> int)
    requires DistinctKeys(g)
    ensures var r := Accumulate(g, x, key, w1, w2);
      && |g| <= |r| <= |g| + 1
      && (forall m :: 0 <= m < |g| ==> r[m].key == g[m].key)
      && (|r| == |g| + 1 ==> r[|g|].key == key(x) && forall m :: 0 <= m < |g| ==> g[m].key != key(x))
      && (|r| == |g| ==> exists m :: 0 <= m < |g| && g[m].key == key(x))
      && DistinctKeys(r)
  {
  }

  lemma AccumulateOccurs<K, T>(g: seq<Group<K>>, s: seq<T>, x: T, key: T -> K, w1: T -> int, w2: T -> int)
    requires Buckets(g, s, key, w1, w2)
    ensures var r := Accumulate(g, x, key, w1, w2);
      forall i :: 0 <= i < |r| ==> Occurs(s + [x], key, r[i].key)
  {
    var r := Accumulate(g, x, key, w1, w2);
    var t := s + [x];
    AccumulateShape(g, x, key, w1, w2);
    forall m | 0 <= m < |r| ensures Occurs(t, key, r[m].key) {
      if m < |g| {
        var j :| 0 <= j < |s| && key(s[j]) == g[m].key;
        assert t[j] == s[j];
      } else {
        assert key(t[|s|]) == r[m].key;
      }
    }
  }

  lemma AccumulateCovers<K, T>(g: seq<Group<K>>, s: seq<T>, x: T, key: T -> K, w1: T -> int, w2: T -> int)
    requires Buckets(g, s, key, w1, w2)
    ensures var r := Accumulate(g, x, key, w1, w2);
      forall j :: 0 <= j < |s| + 1 ==> exists i :: 0 <= i < |r| && r[i].key == key((s + [x])[j])
  {
    var r := Accumulate(g, x, key, w1, w2);
    var t := s + [x];
    AccumulateShape(g, x, key, w1, w2);
    forall j | 0 <= j < |t| ensures exists m :: 0 <= m < |r| && r[m].key == key(t[j]) {
      if j < |s| {
        assert t[j] == s[j];
        var m :| 0 <= m < |g| && g[m].key == key(s[j]);
        assert r[m].key == key(t[j]);
      } else if |r| == |g| + 1 {
        assert r[|g|].key == key(t[j]);
      } else {
        var m :| 0 <= m < |g| && g[m].key == key(x);
        assert r[m].key == key(t[j]);
      }
    }
  }

  /** Adding one element keeps every bucket's sums equal to its reference value. */
  lemma AccumulateSums<K, T>(g: seq<Group<K>>, s: seq<T>, x: T, key: T -> K, w1: T -> int, w2: T -> int)
    requires Buckets(g, s, key, w1, w2)
    ensures var r := Accumulate(g, x, key, w1, w2);
      forall i :: 0 <= i < |r| ==>
        r[i].first == SumWhere(s + [x], key, r[i].key, w1)
        && r[i].second == SumWhere(s + [x], key, r[i].key, w2)
  {
    var t := s + [x];
    assert t[..|t| - 1] == s;
    if IndexOfKey(g, key(x)) < 0 {
      assert !Occurs(s, key, key(x));
      SumWhereAbsent(s, key, key(x), w1);
      SumWhereAbsent(s, key, key(x), w2);
    }
  }

  /** The buckets are exactly the keys of `s`, once each, and each carries the sums of its members. */
  lemma {:induction false} GroupByCorrect<K, T>(s: seq<T>, key: T -> K, w1: T -> int, w2: T -> int)
    ensures Buckets(GroupBy(s, key, w1, w2), s, key, w1, w2)
  {
    if s != [] {
      var s', x := s[..|s| - 1], s[|s| - 1];
      assert s == s' + [x];
      GroupByCorrect(s', key, w1, w2);
      AccumulateKeys(GroupBy(s', key, w1, w2), s', x, key, w1, w2);
      AccumulateSums(GroupBy(s', key, w1, w2), s', x, key, w1, w2);
    }
  }

  /** A bucket's first sum, as a weight. */
  function First<K>(g: Group<K>): int { g.first }

  /** Bucketing neither creates nor loses weight: the bucket sums add up to the total. */
  lemma {:induction false} GroupByTotal<K, T>(s: seq<T>, key: T -> K, w1: T -> int, w2: T -> int)
    ensures Sum(GroupBy(s, key, w1, w2), First) == Sum(s, w1)
  {
    if s != [] {
      var s', x := s[..|s| - 1], s[|s| - 1];
      GroupByTotal(s', key, w1, w2);
      AccumulateTotal(GroupBy(s', key, w1, w2), x, key, w1, w2);
    }
  }

  /** Adding one element to its bucket adds its weight to the bucket sums. */
  lemma AccumulateTotal<K, T>(g: seq<Group<K>>, x: T, key: T -> K, w1: T -> int, w2: T -> int)
    ensures Sum(Accumulate(g, x, key, w1, w2), First) == Sum(g, First) + w1(x)
  {
    var i := IndexOfKey(g, key(x));
    if i >= 0 {
      SumUpdate(g, i, Group(key(x), g[i].first + w1(x), g[i].second + w2(x)), First);
    } else {
      assert (g + [Group(key(x), w1(x), w2(x))])[..|g|] == g;
    }
  }

  /** Replacing one element changes the sum by the difference of the weights. */
  lemma {:induction false} SumUpdate<T>(s: seq<T>, i: nat, y: T, w: T -> int)
    requires i < |s|
    ensures Sum(s[i := y], w) == Sum(s, w) - w(s[i]) + w(y)
  {
    var n := |s| - 1;
    if i < n {
      assert s[i := y][..n] == s[..n][i := y];
      SumUpdate(s[..n], i, y, w);
    } else {
      assert s[i := y][..n] == s[..n];
    }
  }

  // ---------------------------------------------------------------------------
  // Sums under concatenation, reordering and projection.

  lemma {:induction false} SumAppend<T>(a: seq<T>, b: seq<T>, w: T -> int)
    ensures Sum(a + b, w) == Sum(a, w) + Sum(b, w)
  {
    if b == [] {
      assert a + b == a;
    } else {
      assert (a + b)[..|a + b| - 1] == a + b[..|b| - 1];
      SumAppend(a, b[..|b| - 1], w);
    }
  }

  /** The order of the elements does not change their sum. */
  lemma {:induction false} SumPermutation<T>(a: seq<T>, b: seq<T>, w: T -> int)
    requires multiset(a) == multiset(b)
    ensures Sum(a, w) == Sum(b, w)
    decreases |a|
  {
    assert |multiset(a)| == |a| && |multiset(b)| == |b|;
    if a != [] {
      var a', x := a[..|a| - 1], a[|a| - 1];
      assert a == a' + [x];
      assert x in multiset(b);
      var k :| 0 <= k < |b| && b[k] == x;
      var b' := b[..k] + b[k + 1..];
      SpliceMultiset(b, k);
      MultisetCancel(a', b', x);
      SumPermutation(a', b', w);
      SumSplice(b, k, w);
    }
  }

  lemma MultisetCancel<T>(a: seq<T>, b: seq<T>, x: T)
    requires multiset(a + [x]) == multiset(b) + multiset{x}
    ensures multiset(a) == multiset(b)
  {
    assert multiset(a + [x]) == multiset(a) + multiset{x};
    forall y ensures multiset(a)[y] == multiset(b)[y] {
      assert multiset(a + [x])[y] == multiset(a)[y] + multiset{x}[y];
    }
  }

  /** Taking one element out of a sequence takes its weight out of the sum. */
  lemma SumSplice<T>(s: seq<T>, k: nat, w: T -> int)
    requires k < |s|
    ensures Sum(s, w) == Sum(s[..k] + s[k + 1..], w) + w(s[k])
  {
    Split(s, k);
    SumMiddle(s[..k], s[k], s[k + 1..], w);
  }

  lemma SumMiddle<T>(l: seq<T>, x: T, r: seq<T>, w: T -> int)
    ensures Sum(l + [x] + r, w) == Sum(l + r, w) + w(x)
  {
    SumAppend(l + [x], r, w);
    assert (l + [x])[..|l|] == l;
    SumAppend(l, r, w);
  }

  /** Summing the projections of a sequence is summing the composed weight. */
  lemma {:induction false} SumMap<A, B>(s: seq<A>, f: A -> B, w: B -> int, v: A -> int)
    requires forall x :: v(x) == w(f(x))
    ensures Sum(MapSeq(s, f), w) == Sum(s, v)
  {
    if s != [] {
      var n := |s| - 1;
      assert MapSeq(s, f)[..n] == MapSeq(s[..n], f);
      SumMap(s[..n], f, w, v);
    }
  }

  // ---------------------------------------------------------------------------
  // Buckets after `$sort`, `$lookup` and `$limit`.

  /** One bucket is right for `s`: its key occurs and its sums are those of its members. */
  ghost predicate Bucket<K, T>(g: Group<K>, s: seq<T>, key: T -> K, w1: T -> int, w2: T -> int)
  {
    && Occurs(s, key, g.key)
    && g.first == SumWhere(s, key, g.key, w1)
    && g.second == SumWhere(s, key, g.key, w2)
  }

  /** Any selection of correct buckets, in any order, still has one bucket per key,
      each with its members' sums. */
  lemma BucketsSelect<K, T>(groups: seq<Group<K>>, chosen: seq<Group<K>>, s: seq<T>,
                            key: T -> K, w1: T -> int, w2: T -> int)
    requires Buckets(groups, s, key, w1, w2) && multiset(chosen) <= multiset(groups)
    ensures DistinctKeys(chosen)
    ensures forall i :: 0 <= i < |chosen| ==> chosen[i] in groups && Bucket(chosen[i], s, key, w1, w2)
  {
    forall i | 0 <= i < |chosen| ensures chosen[i] in groups {
      assert chosen[i] in multiset(chosen);
    }
    NoDuplicatesSubMultiset(groups, chosen);
    assert DistinctKeys(chosen);
  }

  /** `$sort` after `$group`: a rearrangement of a correct bucketing is a correct bucketing. */
  lemma BucketsPermuted<K, T>(groups: seq<Group<K>>, b: seq<Group<K>>, s: seq<T>,
                              key: T -> K, w1: T -> int, w2: T -> int)
    requires Buckets(groups, s, key, w1, w2) && multiset(b) == multiset(groups)
    ensures Buckets(b, s, key, w1, w2)
  {
    BucketsSelect(groups, b, s, key, w1, w2);
    forall j | 0 <= j < |s| ensures exists i :: 0 <= i < |b| && b[i].key == key(s[j]) {
      var m :| 0 <= m < |groups| && groups[m].key == key(s[j]);
      assert groups[m] in multiset(b);
    }
  }
}
