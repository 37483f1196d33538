// Ordering and filtering by a key: the SQL engine's ORDER BY (as a pure function on rows), and
// Go's in-place `cards[:0]` filter and slices.SortFunc (as methods on an array).
module Sorting {
  /** Ascending by `key`, ties in any order. */
  predicate SortedBy<T>(s: seq<T>, key: T -> real) {
    forall i, j :: 0 <= i < j < |s| ==> key(s[i]) <= key(s[j])
  }

  function Insert<T>(x: T, s: seq<T>, key: T -> real): (r: seq<T>)
    requires SortedBy(s, key)
    ensures SortedBy(r, key) && multiset(r) == multiset(s) + multiset{x}
    ensures |r| == |s| + 1 && (r[0] == x || (|s| > 0 && r[0] == s[0]))
  {
    if s == [] then [x]
    else if key(x) <= key(s[0]) then [x] + s
    else
      SortedTail(s, key);
      var rest := Insert(x, s[1..], key);
      SortedCons(s[0], rest, key);
      InsertCount(x, s, rest);
      [s[0]] + rest
  }

  lemma SortedTail<T>(s: seq<T>, key: T -> real)
    requires SortedBy(s, key) && s != []
    ensures SortedBy(s[1..], key) && (|s| > 1 ==> key(s[0]) <= key(s[1..][0]))
  {
    var t := s[1..];
    forall i, j | 0 <= i < j < |t| ensures key(t[i]) <= key(t[j]) {
      assert t[i] == s[i + 1] && t[j] == s[j + 1];
    }
  }

  lemma InsertCount<T>(x: T, s: seq<T>, rest: seq<T>)
    requires s != [] && multiset(rest) == multiset(s[1..]) + multiset{x}
    ensures multiset([s[0]] + rest) == multiset(s) + multiset{x}
  {
    assert s == [s[0]] + s[1..];
  }

  /** A head no greater than the first element keeps a sorted run sorted. */
  lemma SortedCons<T>(h: T, s: seq<T>, key: T -> real)
    requires SortedBy(s, key) && (s != [] ==> key(h) <= key(s[0]))
    ensures SortedBy([h] + s, key)
  {
    var r := [h] + s;
    forall i, j | 0 <= i < j < |r| ensures key(r[i]) <= key(r[j]) {
      if i > 0 {
        assert r[i] == s[i - 1];
      }
      assert r[j] == s[j - 1];
    }
  }

  /** The rows in key order: sorted, and a permutation of the input. */
  function SortBy<T>(s: seq<T>, key: T -> real): (r: seq<T>)
    ensures SortedBy(r, key) && multiset(r) == multiset(s)
  {
    if s == [] then []
    else
      assert s == [s[0]] + s[1..];
      Insert(s[0], SortBy(s[1..], key), key)
  }

  /** Every element of a set once, in an order the caller cannot rely on. */
  method Enumerate<T>(s: set<T>) returns (r: seq<T>)
    ensures multiset(r) == multiset(s)
  {
    var rest := s;
    r := [];
    while rest != {}
      invariant rest <= s
      invariant multiset(r) == multiset(s - rest)
      decreases |rest|
    {
      var x :| x in rest;
      assert s - (rest - {x}) == (s - rest) + {x};
      r := r + [x];
      rest := rest - {x};
    }
  }

  /** The elements of `s` that `keep` accepts, in their order. */
  function Filter<T>(s: seq<T>, keep: T -> bool): seq<T> {
    if s == [] then [] else Filter(s[..|s| - 1], keep) + (if keep(s[|s| - 1]) then [s[|s| - 1]] else [])
  }

  /** Exactly the accepted elements, each as often as in the input. */
  lemma {:induction false} FilterMultiset<T>(s: seq<T>, keep: T -> bool)
    ensures forall x :: x in multiset(Filter(s, keep)) ==> keep(x)
    ensures forall x | keep(x) :: multiset(Filter(s, keep))[x] == multiset(s)[x]
  {
    if s != [] {
      FilterMultiset(s[..|s| - 1], keep);
      assert s == s[..|s| - 1] + [s[|s| - 1]];
    }
  }

  /** `a[..n]` becomes the accepted elements of the old array, in order, written over its front. */
  method FilterInPlace<T>(a: array<T>, keep: T -> bool) returns (n: nat)
    modifies a
    ensures n <= a.Length && a[..n] == Filter(old(a[..]), keep)
  {
    ghost var s := a[..];
    n := 0;
    var i := 0;
    while i < a.Length
      invariant 0 <= n <= i <= a.Length
      invariant a[..n] == Filter(s[..i], keep)
      invariant a[i..] == s[i..]
    {
      var v := a[i];
      assert v == s[i] by { assert a[i..][0] == s[i..][0]; }
      assert a[i + 1..] == s[i + 1..] by {
        assert a[i + 1..] == a[i..][1..] && s[i + 1..] == s[i..][1..];
      }
      FilterStep(s, i, keep);
      ghost var kept := a[..n];
      ghost var tail := a[i + 1..];
      if keep(v) {
        a[n] := v;
        assert a[..n + 1] == kept + [v];
        n := n + 1;
      }
      assert a[i + 1..] == tail;
      i := i + 1;
    }
    assert s[..a.Length] == s;
  }

  /** Filtering one more element of a prefix appends it exactly when it is accepted. */
  lemma FilterStep<T>(s: seq<T>, i: nat, keep: T -> bool)
    requires i < |s|
    ensures Filter(s[..i + 1], keep) == Filter(s[..i], keep) + (if keep(s[i]) then [s[i]] else [])
  {
    assert s[..i + 1][..i] == s[..i];
  }

  /** Two sorted runs that meet in order form one sorted run. */
  lemma SortedJoin<T>(s: seq<T>, j: nat, key: T -> real)
    requires 0 < j < |s| && SortedBy(s[..j], key) && SortedBy(s[j..], key) && key(s[j - 1]) <= key(s[j])
    ensures SortedBy(s, key)
  {
    forall p, q | 0 <= p < q < |s| ensures key(s[p]) <= key(s[q]) {
      if p < j <= q {
        assert key(s[p]) <= key(s[j - 1]) by { if p < j - 1 { assert s[..j][p] == s[p]; } }
        assert key(s[j]) <= key(s[q]) by { if j < q { assert s[j..][q - j] == s[q]; } }
      } else if q < j {
        assert s[..j][p] == s[p] && s[..j][q] == s[q];
      } else {
        assert s[j..][p - j] == s[p] && s[j..][q - j] == s[q];
      }
    }
  }

  /** One swap of the sifting loop keeps its two sorted runs and its bridge. */
  lemma SwapStep<T>(s: seq<T>, j: nat, i: nat, key: T -> real)
    requires 0 < j <= i < |s|
    requires SortedBy(s[..j], key) && SortedBy(s[j..i + 1], key)
    requires j < i ==> key(s[j - 1]) <= key(s[j + 1])
    requires key(s[j - 1]) > key(s[j])
    ensures var t := s[j - 1 := s[j]][j := s[j - 1]];
      SortedBy(t[..j - 1], key) && SortedBy(t[j - 1..i + 1], key)
      && (0 < j - 1 < i ==> key(t[j - 2]) <= key(t[j]))
      && multiset(t) == multiset(s) && t[i + 1..] == s[i + 1..]
  {
    var t := s[j - 1 := s[j]][j := s[j - 1]];
    SwapCount(s, j - 1, j);
    SwapKeepsPrefix(s, j, key);
    SwapSortsRun(s, j, i, key);
    if 0 < j - 1 < i {
      assert s[..j][j - 2] == s[j - 2] && s[..j][j - 1] == s[j - 1];
    }
  }

  /** The swap leaves the sorted run before it alone. */
  lemma SwapKeepsPrefix<T>(s: seq<T>, j: nat, key: T -> real)
    requires 0 < j < |s| && SortedBy(s[..j], key)
    ensures SortedBy(s[j - 1 := s[j]][j := s[j - 1]][..j - 1], key)
  {
    var t := s[j - 1 := s[j]][j := s[j - 1]];
    assert t[..j - 1] == s[..j - 1];
    forall p, q | 0 <= p < q < j - 1 ensures key(s[p]) <= key(s[q]) {
      assert s[..j][p] == s[p] && s[..j][q] == s[q];
    }
  }

  /** The swapped element and the run after it form one sorted run. */
  lemma SwapSortsRun<T>(s: seq<T>, j: nat, i: nat, key: T -> real)
    requires 0 < j <= i < |s| && SortedBy(s[j..i + 1], key)
    requires j < i ==> key(s[j - 1]) <= key(s[j + 1])
    requires key(s[j - 1]) > key(s[j])
    ensures SortedBy(s[j - 1 := s[j]][j := s[j - 1]][j - 1..i + 1], key)
  {
    var t := s[j - 1 := s[j]][j := s[j - 1]];
    forall p, q | j - 1 <= p < q <= i ensures key(t[p]) <= key(t[q]) {
      if q > j {
        assert s[j..i + 1][q - j] == s[q] && s[j..i + 1][0] == s[j] && s[j..i + 1][1] == s[j + 1];
      }
      if p > j {
        assert s[j..i + 1][p - j] == s[p];
      }
    }
    var r := t[j - 1..i + 1];
    forall p, q | 0 <= p < q < |r| ensures key(r[p]) <= key(r[q]) {
      assert r[p] == t[p + j - 1] && r[q] == t[q + j - 1];
    }
  }

  /** Exchanging two elements keeps the multiset. */
  lemma SwapCount<T>(s: seq<T>, p: nat, q: nat)
    requires p < q < |s|
    ensures multiset(s[p := s[q]][q := s[p]]) == multiset(s)
  {
    var t := s[p := s[q]][q := s[p]];
    assert s == s[..p] + [s[p]] + s[p + 1..q] + [s[q]] + s[q + 1..];
    assert t == s[..p] + [s[q]] + s[p + 1..q] + [s[p]] + s[q + 1..];
  }

  /** Moves `a[i]` left past every greater element, so that `a[..i + 1]` becomes sorted. */
  method SiftDown<T>(a: array<T>, i: nat, key: T -> real)
    requires i < a.Length && SortedBy(a[..i], key)
    modifies a
    ensures SortedBy(a[..i + 1], key)
    ensures multiset(a[..]) == multiset(old(a[..]))
    ensures a[i + 1..] == old(a[i + 1..])
  {
    var j := i;
    assert a[j..i + 1] == [a[i]];
    while j > 0 && key(a[j - 1]) > key(a[j])
      invariant 0 <= j <= i
      invariant SortedBy(a[..j], key) && SortedBy(a[j..i + 1], key)
      invariant 0 < j < i ==> key(a[j - 1]) <= key(a[j + 1])
      invariant multiset(a[..]) == multiset(old(a[..]))
      invariant a[i + 1..] == old(a[i + 1..])
    {
      ghost var s := a[..];
      SwapStep(s, j, i, key);
      a[j - 1], a[j] := a[j], a[j - 1];
      assert a[..] == s[j - 1 := s[j]][j := s[j - 1]];
      assert a[i + 1..] == s[i + 1..];
      j := j - 1;
    }
    SiftedRuns(a[..], j, i, key);
  }

  /** When the sifting stops, its two runs join into one sorted prefix. */
  lemma SiftedRuns<T>(s: seq<T>, j: nat, i: nat, key: T -> real)
    requires j <= i < |s| && SortedBy(s[..j], key) && SortedBy(s[j..i + 1], key)
    requires j > 0 ==> key(s[j - 1]) <= key(s[j])
    ensures SortedBy(s[..i + 1], key)
  {
    if j > 0 {
      assert s[..i + 1][..j] == s[..j] && s[..i + 1][j..] == s[j..i + 1];
      SortedJoin(s[..i + 1], j, key);
    } else {
      assert s[..i + 1] == s[j..i + 1];
    }
  }

  /** Sorts `a[..n]` by `key` in place, leaving the rest of the array alone. */
  method SortInPlace<T>(a: array<T>, n: nat, key: T -> real)
    requires n <= a.Length
    modifies a
    ensures SortedBy(a[..n], key)
    ensures multiset(a[..n]) == multiset(old(a[..n]))
    ensures a[n..] == old(a[n..])
  {
    var i := 0;
    while i < n
      invariant 0 <= i <= n
      invariant SortedBy(a[..i], key)
      invariant multiset(a[..]) == multiset(old(a[..]))
      invariant a[n..] == old(a[n..])
    {
      SiftDown(a, i, key);
      i := i + 1;
    }
    ghost var before := old(a[..]);
    assert a[..] == a[..n] + a[n..] && before == before[..n] + before[n..];
    assert a[n..] == before[n..];
    assert multiset(a[..n]) + multiset(a[n..]) == multiset(before[..n]) + multiset(a[n..]);
    forall x ensures multiset(a[..n])[x] == multiset(before[..n])[x] {
      assert (multiset(a[..n]) + multiset(a[n..]))[x] == (multiset(before[..n]) + multiset(a[n..]))[x];
    }
    assert multiset(a[..n]) == multiset(before[..n]);
  }
}
