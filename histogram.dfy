/** A counting dict built by `d[k] = d.get(k, 0) + 1` in a loop, as an
    association list in the dict's insertion order (first occurrence). */
module Histogram {
  import opened Common

  function Keys<K>(h: seq<(K, nat)>): (r: seq<K>)
    ensures |r| == |h| && forall i :: 0 <= i < |h| ==> r[i] == h[i].0
  {
    seq(|h|, i requires 0 <= i < |h| => h[i].0)
  }

  function SumCounts<K>(h: seq<(K, nat)>): nat
  {
    if h == [] then 0 else h[0].1 + SumCounts(h[1..])
  }

  /** `d[k] = d.get(k, 0) + 1`. */
  function Bump<K(==)>(h: seq<(K, nat)>, k: K): seq<(K, nat)>
  {
    if h == [] then [(k, 1)]
    else if h[0].0 == k then [(k, h[0].1 + 1)] + h[1..]
    else [h[0]] + Bump(h[1..], k)
  }

  /** The dict after counting every element of xs, in order. */
  function Tally<K(==)>(xs: seq<K>): seq<(K, nat)>
  {
    if xs == [] then [] else Bump(Tally(xs[..|xs| - 1]), xs[|xs| - 1])
  }

  lemma TallySnoc<K>(xs: seq<K>, k: K)
    ensures Tally(xs + [k]) == Bump(Tally(xs), k)
  {
    assert (xs + [k])[..|xs|] == xs;
  }

  lemma {:induction false} BumpKeys<K>(h: seq<(K, nat)>, k: K)
    ensures Keys(Bump(h, k)) == if k in Keys(h) then Keys(h) else Keys(h) + [k]
    decreases |h|
  {
    if h != [] && h[0].0 != k {
      BumpKeys(h[1..], k);
      assert Keys(h) == [h[0].0] + Keys(h[1..]);
      assert Keys(Bump(h, k)) == [h[0].0] + Keys(Bump(h[1..], k));
    } else if h != [] {
      assert Keys(h)[0] == k;
    }
  }

  lemma {:induction false} BumpSum<K>(h: seq<(K, nat)>, k: K)
    ensures SumCounts(Bump(h, k)) == SumCounts(h) + 1
    decreases |h|
  {
    if h != [] && h[0].0 != k {
      BumpSum(h[1..], k);
      assert Bump(h, k)[1..] == Bump(h[1..], k);
    } else if h != [] {
      assert Bump(h, k)[1..] == h[1..];
    } else {
      assert Bump(h, k)[1..] == [];
    }
  }

  lemma {:induction false} BumpAt<K>(h: seq<(K, nat)>, k: K)
    requires NoDuplicates(Keys(h))
    ensures |Bump(h, k)| == |h| + (if k in Keys(h) then 0 else 1)
    ensures forall i :: 0 <= i < |h| ==> Bump(h, k)[i] == if h[i].0 == k then (k, h[i].1 + 1) else h[i]
    ensures k !in Keys(h) ==> Bump(h, k)[|h|] == (k, 1)
    decreases |h|
  {
    if h != [] && h[0].0 != k {
      var t := h[1..];
      assert Keys(t) == Keys(h)[1..];
      assert k in Keys(h) <==> k in Keys(t);
      BumpAt(t, k);
      var b := Bump(h, k);
      assert b == [h[0]] + Bump(t, k);
      forall i | 0 < i < |h| ensures b[i] == if h[i].0 == k then (k, h[i].1 + 1) else h[i] {
        assert b[i] == Bump(t, k)[i - 1] && h[i] == t[i - 1];
      }
      if k !in Keys(h) {
        assert b[|h|] == Bump(t, k)[|t|];
      }
    } else if h != [] {
      forall i | 0 < i < |h| ensures h[i].0 != k {
        assert Keys(h)[i] != Keys(h)[0];
      }
      assert k in Keys(h) by { assert Keys(h)[0] == k; }
    }
  }

  /** One counting step keeps every entry's count equal to its number of
      occurrences. */
  lemma BumpCounts<K(!new)>(init: seq<K>, x: K)
    requires Keys(Tally(init)) == Dedup(init)
    requires forall i :: 0 <= i < |Tally(init)| ==> Tally(init)[i].1 == Count(init, Tally(init)[i].0)
    ensures forall i :: 0 <= i < |Bump(Tally(init), x)| ==>
      Bump(Tally(init), x)[i].1 == Count(init + [x], Bump(Tally(init), x)[i].0)
  {
    var h := Tally(init);
    BumpAt(h, x);
    var b := Bump(h, x);
    forall i | 0 <= i < |b| ensures b[i].1 == Count(init + [x], b[i].0) {
      CountAppend(init, [x], b[i].0);
      assert Count([x], b[i].0) == Indicator(x == b[i].0) by {
        assert [x][..0] == [];
      }
      if i >= |h| {
        assert b[i].0 == x;
        CountBound(init, x);
        assert x !in Dedup(init);
      }
    }
  }

  /** The dict's keys are the distinct elements in first-occurrence order, its
      counts are the numbers of occurrences, and they add up to |xs|. */
  lemma {:induction false} TallyCorrect<K(!new)>(xs: seq<K>)
    ensures Keys(Tally(xs)) == Dedup(xs)
    ensures |Tally(xs)| == |Dedup(xs)|
    ensures forall i :: 0 <= i < |Tally(xs)| ==> Tally(xs)[i].1 == Count(xs, Tally(xs)[i].0)
    ensures SumCounts(Tally(xs)) == |xs|
  {
    if xs != [] {
      var init := xs[..|xs| - 1];
      var x := xs[|xs| - 1];
      assert xs == init + [x];
      TallyCorrect(init);
      BumpKeys(Tally(init), x);
      BumpSum(Tally(init), x);
      BumpCounts(init, x);
    }
  }

  lemma {:induction false} SumCountsAppend<K>(a: seq<(K, nat)>, b: seq<(K, nat)>)
    ensures SumCounts(a + b) == SumCounts(a) + SumCounts(b)
  {
    if a != [] {
      assert (a + b)[1..] == a[1..] + b;
      SumCountsAppend(a[1..], b);
    } else {
      assert a + b == b;
    }
  }

  lemma SumCountsRemove<K>(b: seq<(K, nat)>, j: nat)
    requires j < |b|
    ensures SumCounts(b) == b[j].1 + SumCounts(b[..j] + b[j + 1..])
  {
    var pre, post := b[..j], b[j + 1..];
    assert b == pre + ([b[j]] + post);
    SumCountsAppend(pre, [b[j]] + post);
    SumCountsAppend(pre, post);
    assert ([b[j]] + post)[1..] == post;
  }

  lemma MultisetRemove<T>(b: seq<T>, j: nat)
    requires j < |b|
    ensures multiset(b[..j] + b[j + 1..]) == multiset(b) - multiset{b[j]}
  {
    assert b == b[..j] + [b[j]] + b[j + 1..];
  }

  /** Reordering the entries (as `sorted` does) keeps the total. */
  lemma {:induction false} SumCountsPermutation<K>(a: seq<(K, nat)>, b: seq<(K, nat)>)
    requires multiset(a) == multiset(b)
    ensures SumCounts(a) == SumCounts(b)
    decreases |a|
  {
    if a == [] {
      assert |b| == |multiset(b)| == 0;
    } else {
      var x := a[0];
      assert x in multiset(b);
      var j :| 0 <= j < |b| && b[j] == x;
      var rest := b[..j] + b[j + 1..];
      MultisetRemove(b, j);
      assert multiset(a[1..]) == multiset(rest) by {
        assert a == [x] + a[1..];
      }
      SumCountsPermutation(a[1..], rest);
      SumCountsRemove(b, j);
    }
  }

  lemma {:induction false} NoDuplicatesMultiset<T>(s: seq<T>, x: T)
    requires NoDuplicates(s)
    ensures multiset(s)[x] <= 1
  {
    if s != [] {
      assert s == [s[0]] + s[1..];
      assert NoDuplicates(s[1..]);
      NoDuplicatesMultiset(s[1..], x);
      if s[0] == x {
        assert x !in s[1..];
      }
    }
  }

  lemma RepeatedMultiset<T>(s: seq<T>, i: nat, j: nat)
    requires i < j < |s| && s[i] == s[j]
    ensures multiset(s)[s[i]] >= 2
  {
    assert s == s[..j] + s[j..];
    assert s[i] in s[..j];
    assert s[j] in s[j..];
  }

  /** A reordering of a dict's items still has distinct keys. */
  lemma KeysDistinctAfterPermutation<K>(h: seq<(K, nat)>, r: seq<(K, nat)>)
    requires NoDuplicates(Keys(h)) && multiset(r) == multiset(h)
    ensures NoDuplicates(Keys(r))
  {
    assert NoDuplicates(h) by {
      forall i, j | 0 <= i < j < |h| ensures h[i] != h[j] {
        assert Keys(h)[i] != Keys(h)[j];
      }
    }
    forall i, j | 0 <= i < j < |r| ensures Keys(r)[i] != Keys(r)[j] {
      if r[i].0 == r[j].0 {
        assert r[i] in multiset(h) && r[j] in multiset(h);
        var a :| 0 <= a < |h| && h[a] == r[i];
        var b :| 0 <= b < |h| && h[b] == r[j];
        assert a == b;
        RepeatedMultiset(r, i, j);
        NoDuplicatesMultiset(h, r[i]);
        assert false;
      }
    }
  }

  /** Any reordering of the tally of xs (a sorted view of the dict) still
      has distinct keys, the right counts, the keys of xs, and total |xs|. */
  lemma PermutedTally<K(!new)>(xs: seq<K>, d: seq<(K, nat)>)
    requires multiset(d) == multiset(Tally(xs))
    ensures SumCounts(d) == |xs|
    ensures NoDuplicates(Keys(d))
    ensures forall i :: 0 <= i < |d| ==> d[i].1 == Count(xs, d[i].0)
    ensures forall k :: k in xs <==> k in Keys(d)
  {
    var h := Tally(xs);
    TallyCorrect(xs);
    SumCountsPermutation(h, d);
    KeysDistinctAfterPermutation(h, d);
    PermutedEntries(h, d);
    forall k ensures k in xs <==> k in Keys(d) {
      assert k in xs <==> k in Dedup(xs);
    }
  }

  lemma PermutedEntries<K>(h: seq<(K, nat)>, d: seq<(K, nat)>)
    requires multiset(d) == multiset(h)
    ensures forall i :: 0 <= i < |d| ==> d[i] in h
    ensures forall k :: k in Keys(h) <==> k in Keys(d)
  {
    forall i | 0 <= i < |d| ensures d[i] in h {
      assert d[i] in multiset(h);
    }
    forall k | k in Keys(h) ensures k in Keys(d) {
      var j :| 0 <= j < |h| && Keys(h)[j] == k;
      assert h[j] in multiset(d);
      var i :| 0 <= i < |d| && d[i] == h[j];
      assert Keys(d)[i] == k;
    }
    forall k | k in Keys(d) ensures k in Keys(h) {
      var i :| 0 <= i < |d| && Keys(d)[i] == k;
      assert d[i] in multiset(h);
      var j :| 0 <= j < |h| && h[j] == d[i];
      assert Keys(h)[j] == k;
    }
  }

  /** Keeping the first entries keeps the keys distinct. */
  lemma KeysPrefixDistinct<K>(d: seq<(K, nat)>, n: nat)
    requires NoDuplicates(Keys(d)) && n <= |d|
    ensures NoDuplicates(Keys(d[..n]))
  {
    forall i, j | 0 <= i < j < n ensures Keys(d[..n])[i] != Keys(d[..n])[j] {
      assert Keys(d)[i] != Keys(d)[j];
    }
  }
}
