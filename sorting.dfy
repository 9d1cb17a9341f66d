/**
 * Ordering of query results. The stores answer `sort({ field: ±1 })` and
 * `limit(n)`; both are modelled here once, for any element type and any
 * total preorder, as an insertion sort and a prefix of the sorted result.
 */
module Sorting {
  import opened Common

  /** `le` is total and transitive: the orders a `sort` stage can impose. */
  ghost predicate TotalPreorder<T(!new)>(le: (T, T) -> bool)
  {
    && (forall a, b :: le(a, b) || le(b, a))
    && (forall a, b, c :: le(a, b) && le(b, c) ==> le(a, c))
  }

  /** Every earlier element comes before (or ties with) every later one. */
  ghost predicate Sorted<T>(s: seq<T>, le: (T, T) -> bool)
  {
    forall i, j :: 0 <= i < j < |s| ==> le(s[i], s[j])
  }

  /** Inserts `x` into the sorted sequence `s` before the first element it precedes. */
  function Insert<T(!new)>(x: T, s: seq<T>, le: (T, T) -> bool): (r: seq<T>)
    requires TotalPreorder(le)
    requires Sorted(s, le)
    ensures multiset(r) == multiset(s) + multiset{x}
    ensures Sorted(r, le)
  {
    if s == [] then [x]
    else if le(x, s[0]) then [x] + s
    else
      assert s == [s[0]] + s[1..];
      var rest := Insert(x, s[1..], le);
      InsertBehindHead(s[0], s[1..], x, rest, le);
      [s[0]] + rest
  }

  /** The head of a sorted sequence that `x` does not precede stays in front of the tail
      with `x` inserted. */
  lemma InsertBehindHead<T(!new)>(h: T, t: seq<T>, x: T, rest: seq<T>, le: (T, T) -> bool)
    requires TotalPreorder(le)
    requires Sorted([h] + t, le) && !le(x, h)
    requires multiset(rest) == multiset(t) + multiset{x} && Sorted(rest, le)
    ensures Sorted([h] + rest, le)
  {
    forall k | 0 <= k < |rest| ensures le(h, rest[k]) {
      assert rest[k] in multiset(rest);
      if rest[k] == x {
        assert le(x, h) || le(h, x);
      } else {
        var j :| 0 <= j < |t| && t[j] == rest[k];
        assert ([h] + t)[0] == h && ([h] + t)[j + 1] == t[j];
      }
    }
    forall i, j | 0 <= i < j < |[h] + rest| ensures le(([h] + rest)[i], ([h] + rest)[j]) {
      if i > 0 {
        assert ([h] + rest)[i] == rest[i - 1] && ([h] + rest)[j] == rest[j - 1];
      }
    }
  }

  /** The elements of `s`, rearranged in `le` order. */
  function Sort<T(!new)>(s: seq<T>, le: (T, T) -> bool): (r: seq<T>)
    requires TotalPreorder(le)
    ensures multiset(r) == multiset(s)
    ensures Sorted(r, le)
  {
    if s == [] then []
    else
      assert s == [s[0]] + s[1..];
      Insert(s[0], Sort(s[1..], le), le)
  }

  /** `sort` followed by `limit(n)`: the first `n` elements in `le` order.
      Everything left out comes after everything kept. */
  function Top<T(!new)>(s: seq<T>, le: (T, T) -> bool, n: nat): (r: seq<T>)
    requires TotalPreorder(le)
    ensures |r| == Min(n, |s|)
    ensures Sorted(r, le)
    ensures multiset(r) <= multiset(s)
    ensures n >= |s| ==> multiset(r) == multiset(s)
    ensures forall x, y :: x in multiset(s) - multiset(r) && y in r ==> le(y, x)
  {
    var sorted := Sort(s, le);
    assert |multiset(sorted)| == |sorted| && |multiset(s)| == |s|;
    PrefixOfSorted(s, sorted, le, Min(n, |s|));
    sorted[..Min(n, |s|)]
  }

  /** An element of `s` that `limit(n)` leaves out of the sorted result means the result
      is full, and everything kept comes before it. */
  lemma TopExcluded<T(!new)>(s: seq<T>, le: (T, T) -> bool, n: nat, x: T)
    requires TotalPreorder(le)
    requires x in multiset(s) && x !in multiset(Top(s, le, n))
    ensures |Top(s, le, n)| == n
    ensures forall i :: 0 <= i < n ==> le(Top(s, le, n)[i], x)
  {
    var r := Top(s, le, n);
    assert x in multiset(s) - multiset(r);
    forall i | 0 <= i < n ensures le(r[i], x) {
      assert r[i] in r;
    }
  }

  /** A prefix of a sorted arrangement of `s` is a sub-multiset of `s` that comes before
      everything it leaves out. */
  lemma PrefixOfSorted<T>(s: seq<T>, sorted: seq<T>, le: (T, T) -> bool, k: nat)
    requires multiset(sorted) == multiset(s) && Sorted(sorted, le) && k <= |sorted|
    ensures multiset(sorted[..k]) <= multiset(s)
    ensures k == |sorted| ==> multiset(sorted[..k]) == multiset(s)
    ensures forall x, y :: x in multiset(s) - multiset(sorted[..k]) && y in sorted[..k] ==> le(y, x)
  {
    var r := sorted[..k];
    var rest := sorted[k..];
    assert sorted == r + rest;
    assert multiset(s) - multiset(r) == multiset(rest);
    forall x, y | x in multiset(rest) && y in r ensures le(y, x) {
      var j :| 0 <= j < |rest| && rest[j] == x;
      var i :| 0 <= i < |r| && r[i] == y;
      assert sorted[k + j] == x && sorted[i] == y;
    }
  }

  // ---------------------------------------------------------------------------
  // Duplicates under reordering and selection.

  /** No element occurs twice. */
  ghost predicate NoDuplicates<T>(s: seq<T>)
  {
    forall i, j :: 0 <= i < j < |s| ==> s[i] != s[j]
  }

  lemma {:induction false} CountAtMostOne<T>(s: seq<T>, x: T)
    requires NoDuplicates(s)
    ensures multiset(s)[x] <= 1
  {
    if s != [] {
      assert s == [s[0]] + s[1..];
      CountAtMostOne(s[1..], x);
      if s[0] == x {
        assert x !in s[1..];
      }
    }
  }

  lemma CountTwo<T>(s: seq<T>, i: nat, j: nat)
    requires i < j < |s| && s[i] == s[j]
    ensures multiset(s)[s[i]] >= 2
  {
    assert s == s[..i] + [s[i]] + s[i + 1..j] + [s[j]] + s[j + 1..];
  }

  /** Taking some of the elements of a sequence without duplicates, in any order,
      gives a sequence without duplicates. */
  lemma NoDuplicatesSubMultiset<T>(a: seq<T>, b: seq<T>)
    requires NoDuplicates(a) && multiset(b) <= multiset(a)
    ensures NoDuplicates(b)
  {
    forall i, j | 0 <= i < j < |b| ensures b[i] != b[j] {
      if b[i] == b[j] {
        CountTwo(b, i, j);
        CountAtMostOne(a, b[i]);
        assert false;
      }
    }
  }
}
