/**
 * `slices.Sort(dates)`: the collected date keys put in ascending string
 * order before anything is rendered.
 */
module KeySort {
  import opened Text
  import opened Distinct

  /** Ascending: no later key is smaller than an earlier one. */
  predicate Sorted(s: seq<string>)
  {
    forall i, j :: 0 <= i < j < |s| ==> !Less(s[j], s[i])
  }

  predicate StrictlyAscending(s: seq<string>)
  {
    forall i, j :: 0 <= i < j < |s| ==> Less(s[i], s[j])
  }

  /** Puts `x` in front of the first key of `ys` that is greater than it. */
  method Insert(ys: seq<string>, x: string) returns (zs: seq<string>)
    requires Sorted(ys)
    ensures Sorted(zs)
    ensures multiset(zs) == multiset(ys) + multiset{x}
  {
    var i := 0;
    while i < |ys| && !Less(x, ys[i])
      invariant 0 <= i <= |ys|
      invariant forall k :: 0 <= k < i ==> !Less(x, ys[k])
    {
      i := i + 1;
    }
    zs := ys[..i] + [x] + ys[i..];
    InsertSorted(ys, x, i);
    assert ys == ys[..i] + ys[i..];
  }

  /** Putting `x` after the keys it is not less than and before the first key greater than it keeps the order. */
  lemma InsertSorted(ys: seq<string>, x: string, i: nat)
    requires Sorted(ys) && i <= |ys|
    requires forall k :: 0 <= k < i ==> !Less(x, ys[k])
    requires i == |ys| || Less(x, ys[i])
    ensures Sorted(ys[..i] + [x] + ys[i..])
  {
    var zs := ys[..i] + [x] + ys[i..];
    forall k, l | 0 <= k < l < |zs| ensures !Less(zs[l], zs[k]) {
      if l < i {
        assert zs[k] == ys[k] && zs[l] == ys[l];
      } else if l == i {
        assert zs[k] == ys[k] && zs[l] == x;
      } else if k > i {
        assert zs[k] == ys[k - 1] && zs[l] == ys[l - 1];
      } else if k < i {
        assert zs[k] == ys[k] && zs[l] == ys[l - 1];
      } else {
        assert zs[k] == x && zs[l] == ys[l - 1];
        if Less(ys[l - 1], x) {
          LessTransitive(ys[l - 1], x, ys[i]);
          LessIrreflexive(ys[i]);
        }
      }
    }
  }

  /** An insertion sort: the same keys, in ascending order. */
  method Sort(xs: seq<string>) returns (ys: seq<string>)
    ensures Sorted(ys)
    ensures multiset(ys) == multiset(xs)
  {
    ys := [];
    var i := 0;
    while i < |xs|
      invariant 0 <= i <= |xs|
      invariant Sorted(ys)
      invariant multiset(ys) == multiset(xs[..i])
    {
      ys := Insert(ys, xs[i]);
      assert xs[..i + 1] == xs[..i] + [xs[i]];
      i := i + 1;
    }
    assert xs[..i] == xs;
  }

  /** Sorting keys that are all different leaves them strictly ascending. */
  lemma DistinctSortedAscending(s: seq<string>)
    requires Sorted(s) && NoDup(s)
    ensures StrictlyAscending(s)
  {
    forall i, j | 0 <= i < j < |s|
      ensures Less(s[i], s[j])
    {
      LessTotal(s[i], s[j]);
    }
  }

  /**
   * There is only one ascending arrangement of a given collection of keys, so
   * the insertion sort here and Go's pattern-defeating quicksort agree.
   */
  lemma {:induction false} SortedUnique(a: seq<string>, b: seq<string>)
    requires Sorted(a) && Sorted(b)
    requires multiset(a) == multiset(b)
    ensures a == b
    decreases |a|
  {
    assert |multiset(a)| == |a| && |multiset(b)| == |b|;
    if a != [] {
      assert a[0] in multiset(b) && b[0] in multiset(a);
      SortedHeadLeast(a, b[0]);
      SortedHeadLeast(b, a[0]);
      LessTotal(a[0], b[0]);
      TailMultiset(a);
      TailMultiset(b);
      SortedUnique(a[1..], b[1..]);
      assert a == [a[0]] + a[1..] && b == [b[0]] + b[1..];
    }
  }

  lemma SortedHeadLeast(s: seq<string>, x: string)
    requires Sorted(s) && x in s
    ensures !Less(x, s[0])
  {
    var j :| 0 <= j < |s| && s[j] == x;
    if j == 0 {
      LessIrreflexive(x);
    }
  }

  lemma TailMultiset(s: seq<string>)
    requires s != []
    ensures multiset(s[1..]) == multiset(s) - multiset{s[0]}
  {
    assert s == [s[0]] + s[1..];
  }
}
