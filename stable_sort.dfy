/** Python's `list.sort(key=..., reverse=True)` on an integer key: the result
    is ordered by non-increasing key, is a permutation of the input, and is
    STABLE: the elements sharing one key value keep their original order.
    The three properties together determine the result. */
module StableSort {
  import opened Common

  predicate SortedDesc<T>(s: seq<T>, key: T -> int)
  {
    forall i, j :: 0 <= i < j < |s| ==> key(s[i]) >= key(s[j])
  }

  /** The subsequence of s whose key is k. */
  function WithKey<T>(s: seq<T>, key: T -> int, k: int): seq<T>
  {
    if s == [] then [] else (if key(s[0]) == k then [s[0]] else []) + WithKey(s[1..], key, k)
  }

  /** Places x in front of the first element whose key is not larger, so x
      precedes the elements of s with an equal key. */
  function Insert<T>(x: T, s: seq<T>, key: T -> int): seq<T>
  {
    if s == [] || key(s[0]) <= key(x) then [x] + s else [s[0]] + Insert(x, s[1..], key)
  }

  function SortDesc<T(==)>(s: seq<T>, key: T -> int): (r: seq<T>)
    ensures SortedDesc(r, key)
    ensures multiset(r) == multiset(s)
    ensures |r| == |s|
    ensures forall k :: WithKey(r, key, k) == WithKey(s, key, k)
  {
    if s == [] then []
    else
      var t := SortDesc(s[1..], key);
      InsertSorted(s[0], t, key);
      InsertMultiset(s[0], t, key);
      assert s == [s[0]] + s[1..];
      forall k ensures WithKey(Insert(s[0], t, key), key, k) == WithKey(s, key, k) {
        InsertWithKey(s[0], t, key, k);
      }
      Insert(s[0], t, key)
  }

  lemma {:induction false} InsertSorted<T>(x: T, s: seq<T>, key: T -> int)
    requires SortedDesc(s, key)
    ensures SortedDesc(Insert(x, s, key), key)
    ensures |Insert(x, s, key)| == |s| + 1
    ensures forall i :: 0 <= i < |Insert(x, s, key)| ==>
      key(Insert(x, s, key)[i]) == key(x) || exists j :: 0 <= j < |s| && key(Insert(x, s, key)[i]) == key(s[j])
  {
    if s != [] && key(s[0]) > key(x) {
      InsertSorted(x, s[1..], key);
      var r := Insert(x, s[1..], key);
      forall i | 0 <= i < |r| ensures key(r[i]) <= key(s[0]) {
        if key(r[i]) != key(x) {
          var j :| 0 <= j < |s[1..]| && key(r[i]) == key(s[1..][j]);
          assert s[1..][j] == s[j + 1];
        }
      }
      forall i | 0 <= i < |r| ensures key(r[i]) == key(x) || exists j :: 0 <= j < |s| && key(r[i]) == key(s[j]) {
        if key(r[i]) != key(x) {
          var j :| 0 <= j < |s[1..]| && key(r[i]) == key(s[1..][j]);
          assert s[1..][j] == s[j + 1];
        }
      }
    }
  }

  lemma {:induction false} InsertMultiset<T>(x: T, s: seq<T>, key: T -> int)
    ensures multiset(Insert(x, s, key)) == multiset([x] + s)
  {
    if s != [] && key(s[0]) > key(x) {
      InsertMultiset(x, s[1..], key);
      assert s == [s[0]] + s[1..];
    }
  }

  lemma {:induction false} WithKeyAppend<T>(a: seq<T>, b: seq<T>, key: T -> int, k: int)
    ensures WithKey(a + b, key, k) == WithKey(a, key, k) + WithKey(b, key, k)
  {
    if a != [] {
      assert (a + b)[1..] == a[1..] + b;
      WithKeyAppend(a[1..], b, key, k);
    } else {
      assert a + b == b;
    }
  }

  lemma {:induction false} InsertWithKey<T>(x: T, s: seq<T>, key: T -> int, k: int)
    ensures WithKey(Insert(x, s, key), key, k) == WithKey([x] + s, key, k)
  {
    if s != [] && key(s[0]) > key(x) {
      InsertWithKey(x, s[1..], key, k);
      WithKeyAppend([s[0]], Insert(x, s[1..], key), key, k);
      WithKeyAppend([x], s[1..], key, k);
      WithKeyAppend([x], s, key, k);
      WithKeyAppend([s[0]], s[1..], key, k);
      assert s == [s[0]] + s[1..];
    }
  }

  lemma {:induction false} WithKeyAll<T>(s: seq<T>, key: T -> int, k: int)
    requires forall i :: 0 <= i < |s| ==> key(s[i]) == k
    ensures WithKey(s, key, k) == s
  {
    if s != [] {
      WithKeyAll(s[1..], key, k);
    }
  }

  /** When every key is equal the stable sort changes nothing. */
  lemma SortAllEqualIsIdentity<T>(s: seq<T>, key: T -> int, k: int)
    requires forall i :: 0 <= i < |s| ==> key(s[i]) == k
    ensures SortDesc(s, key) == s
  {
    var r := SortDesc(s, key);
    forall i | 0 <= i < |r| ensures key(r[i]) == k {
      assert r[i] in multiset(s);
    }
    WithKeyAll(s, key, k);
    WithKeyAll(r, key, k);
  }

  /** Stability survives truncation: per key, the kept elements are a prefix
      of that key's elements in the original order. */
  lemma {:induction false} WithKeyPrefix<T>(s: seq<T>, n: nat, key: T -> int, k: int)
    requires n <= |s|
    ensures IsPrefix(WithKey(s[..n], key, k), WithKey(s, key, k))
  {
    assert s == s[..n] + s[n..];
    WithKeyAppend(s[..n], s[n..], key, k);
  }

  /** The top of a stable sort, `sorted(s, reverse=True)[:n]`: sorted, a
      sub-multiset of s, no dropped element with a larger key than a kept
      one, and per key the first elements of s with that key. */
  lemma TopOfSortDesc<T>(s: seq<T>, n: int, key: T -> int)
    ensures var r := PyPrefix(SortDesc(s, key), n);
      SortedDesc(r, key) &&
      multiset(r) <= multiset(s) &&
      (forall x :: x in multiset(s) - multiset(r) ==> forall i :: 0 <= i < |r| ==> key(x) <= key(r[i])) &&
      forall k :: IsPrefix(WithKey(r, key, k), WithKey(s, key, k))
  {
    var t := SortDesc(s, key);
    var r := PyPrefix(t, n);
    SortedPrefix(t, |r|, key);
    forall k ensures IsPrefix(WithKey(r, key, k), WithKey(s, key, k)) {
      WithKeyPrefix(t, |r|, key, k);
    }
    SortedPrefixOutranks(t, |r|, key);
    assert r == t[..|r|];
  }

  /** No element after a prefix of a sorted list has a larger key than an
      element of the prefix. */
  lemma SortedPrefixOutranks<T>(t: seq<T>, m: nat, key: T -> int)
    requires SortedDesc(t, key) && m <= |t|
    ensures multiset(t[..m]) <= multiset(t)
    ensures forall x :: x in multiset(t) - multiset(t[..m]) ==> forall i :: 0 <= i < m ==> key(x) <= key(t[i])
  {
    var r := t[..m];
    var rest := t[m..];
    assert t == r + rest;
    assert multiset(t) == multiset(r) + multiset(rest);
    forall x | x in multiset(t) - multiset(r) ensures forall i :: 0 <= i < m ==> key(x) <= key(t[i]) {
      assert x in multiset(rest);
      var j :| 0 <= j < |rest| && rest[j] == x;
      assert t[m + j] == x;
    }
  }

  lemma {:induction false} SortedPrefix<T>(s: seq<T>, n: nat, key: T -> int)
    requires SortedDesc(s, key) && n <= |s|
    ensures SortedDesc(s[..n], key)
  {
  }
}
