/** Python's stable `list.sort(key=..., reverse=True)` on a timestamp key,
    where a missing timestamp sorts as the earliest time. */
module TimeOrder {
  import opened Wrappers

  /** Time `a` is not earlier than time `b`; a missing time is earliest. */
  predicate NotBefore(a: Option<int>, b: Option<int>) {
    b.None? || (a.Some? && a.value >= b.value)
  }

  lemma NotBeforeTotal(a: Option<int>, b: Option<int>, c: Option<int>)
    ensures NotBefore(a, b) || NotBefore(b, a)
    ensures NotBefore(a, b) && NotBefore(b, c) ==> NotBefore(a, c)
  {
  }

  /** Newest first. */
  ghost predicate SortedDesc<T>(s: seq<T>, key: T -> Option<int>) {
    forall i, j | 0 <= i < j < |s| :: NotBefore(key(s[i]), key(s[j]))
  }

  /** Inserts `x` before the first element that is not newer than it, so that
      `x` stays ahead of the elements with its key. */
  function Insert<T>(x: T, s: seq<T>, key: T -> Option<int>): (r: seq<T>)
    ensures |r| == |s| + 1
    ensures multiset(r) == multiset(s) + multiset{x}
    ensures r[0] == x || (s != [] && r[0] == s[0])
  {
    if s == [] || NotBefore(key(x), key(s[0])) then [x] + s
    else
      assert s == [s[0]] + s[1..];
      [s[0]] + Insert(x, s[1..], key)
  }

  /** The sort: each element is inserted, from the last to the first, into
      the sorted rest. */
  function SortDesc<T>(s: seq<T>, key: T -> Option<int>): (r: seq<T>)
    ensures |r| == |s|
    ensures multiset(r) == multiset(s)
  {
    if s == [] then []
    else
      assert s == [s[0]] + s[1..];
      Insert(s[0], SortDesc(s[1..], key), key)
  }

  lemma {:induction false} InsertSorted<T>(x: T, s: seq<T>, key: T -> Option<int>)
    requires SortedDesc(s, key)
    ensures SortedDesc(Insert(x, s, key), key)
  {
    if s == [] || NotBefore(key(x), key(s[0])) {
      var r := [x] + s;
      forall i, j | 0 <= i < j < |r| ensures NotBefore(key(r[i]), key(r[j])) {
        if i == 0 {
          NotBeforeTotal(key(x), key(s[0]), key(s[j - 1]));
        }
      }
    } else {
      InsertSorted(x, s[1..], key);
      var tail := Insert(x, s[1..], key);
      var r := [s[0]] + tail;
      forall i, j | 0 <= i < j < |r| ensures NotBefore(key(r[i]), key(r[j])) {
        if i == 0 {
          var y := r[j];
          assert y in multiset(tail);
          assert y == x || y in s[1..];
          if y == x {
            NotBeforeTotal(key(x), key(s[0]), key(s[0]));
          } else {
            var k :| 0 <= k < |s[1..]| && s[1..][k] == y;
            assert s[k + 1] == y;
          }
        }
      }
    }
  }

  /** The result is newest first (and, by the ensures of `SortDesc`, a
      permutation of the input). */
  lemma {:induction false} SortDescSorted<T>(s: seq<T>, key: T -> Option<int>)
    ensures SortedDesc(SortDesc(s, key), key)
  {
    if s != [] {
      SortDescSorted(s[1..], key);
      InsertSorted(s[0], SortDesc(s[1..], key), key);
    }
  }

  /** When every key is missing the sort changes nothing. */
  lemma {:induction false} SortDescAllMissing<T>(s: seq<T>, key: T -> Option<int>)
    requires forall i | 0 <= i < |s| :: key(s[i]).None?
    ensures SortDesc(s, key) == s
  {
    if s != [] {
      SortDescAllMissing(s[1..], key);
      assert s == [s[0]] + s[1..];
    }
  }

  /** The elements whose key is `k`, in order. */
  function WithKey<T>(s: seq<T>, key: T -> Option<int>, k: Option<int>): seq<T> {
    if s == [] then [] else (if key(s[0]) == k then [s[0]] else []) + WithKey(s[1..], key, k)
  }

  /** Insertion passes over strictly newer elements only, so `x` lands ahead
      of every element with its key and the rest keep their order. */
  lemma {:induction false} InsertStable<T>(x: T, s: seq<T>, key: T -> Option<int>, k: Option<int>)
    ensures WithKey(Insert(x, s, key), key, k) == (if key(x) == k then [x] else []) + WithKey(s, key, k)
  {
    if s == [] || NotBefore(key(x), key(s[0])) {
      assert ([x] + s)[1..] == s;
    } else {
      InsertStable(x, s[1..], key, k);
      var r := [s[0]] + Insert(x, s[1..], key);
      assert r[1..] == Insert(x, s[1..], key);
      assert key(s[0]) != key(x);
    }
  }

  /** The sort is stable: the elements sharing any one key come out in the
      order they went in. */
  lemma {:induction false} SortDescStable<T>(s: seq<T>, key: T -> Option<int>, k: Option<int>)
    ensures WithKey(SortDesc(s, key), key, k) == WithKey(s, key, k)
  {
    if s != [] {
      SortDescStable(s[1..], key, k);
      InsertStable(s[0], SortDesc(s[1..], key), key, k);
    }
  }

  lemma PrefixIn<T>(r: seq<T>, n: int)
    requires 0 <= n <= |r|
    ensures multiset(r[..n]) <= multiset(r)
  {
    assert r == r[..n] + r[n..];
  }

  /** The first `n` of the sorted sequence are some of the input's elements. */
  lemma SortDescPrefixFrom<T>(s: seq<T>, key: T -> Option<int>, n: int)
    requires 0 <= n <= |s|
    ensures multiset(SortDesc(s, key)[..n]) <= multiset(s)
  {
    PrefixIn(SortDesc(s, key), n);
  }

  /** The first `n` of the sorted sequence are newest first, and none of the
      rest is newer than any of them. */
  lemma SortDescPrefixNewest<T>(s: seq<T>, key: T -> Option<int>, n: int)
    requires 0 <= n <= |s|
    ensures var r := SortDesc(s, key);
      && SortedDesc(r[..n], key)
      && forall i, j | 0 <= i < n <= j < |s| :: NotBefore(key(r[i]), key(r[j]))
  {
    SortDescSorted(s, key);
  }
}
