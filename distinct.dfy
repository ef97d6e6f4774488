/**
 * The "append unless already there" idiom the report uses twice: for the list
 * of date keys (`slices.Contains(dates, date)`) and for the description
 * fragments of a condensed CSV row (`slices.Contains(doings, doing)`).
 */
module Distinct {

  predicate NoDup<T(==)>(s: seq<T>)
  {
    forall i, j :: 0 <= i < j < |s| ==> s[i] != s[j]
  }

  /** One step of the idiom: `x` is appended only if `acc` lacks it. */
  function AddNew<T(==)>(acc: seq<T>, x: T): seq<T>
  {
    if x in acc then acc else acc + [x]
  }

  /** The idiom run over all of `xs`, in order, starting from `acc`. */
  function Dedup<T(==)>(acc: seq<T>, xs: seq<T>): seq<T>
  {
    if xs == [] then acc else AddNew(Dedup(acc, xs[..|xs| - 1]), xs[|xs| - 1])
  }

  /** Position of the first occurrence of `x`. */
  function FirstIndex<T(==)>(xs: seq<T>, x: T): (i: nat)
    requires x in xs
    ensures i < |xs| && xs[i] == x && x !in xs[..i]
  {
    if xs[0] == x then 0 else 1 + FirstIndex(xs[1..], x)
  }

  /** Every element of `r` occurs in `xs`, and earlier in `r` means first occurring earlier in `xs`. */
  ghost predicate InFirstOccurrenceOrder<T>(xs: seq<T>, r: seq<T>)
  {
    && (forall x | x in r :: x in xs)
    && (forall i, j | 0 <= i < j < |r| :: FirstIndex(xs, r[i]) < FirstIndex(xs, r[j]))
  }

  /** Feeding `xs + ys` is feeding `xs`, then `ys`. */
  lemma {:induction false} DedupAppend<T>(acc: seq<T>, xs: seq<T>, ys: seq<T>)
    ensures Dedup(acc, xs + ys) == Dedup(Dedup(acc, xs), ys)
    decreases |ys|
  {
    if ys == [] {
      assert xs + ys == xs;
    } else {
      var zs := xs + ys;
      assert zs[..|zs| - 1] == xs + ys[..|ys| - 1];
      assert zs[|zs| - 1] == ys[|ys| - 1];
      DedupAppend(acc, xs, ys[..|ys| - 1]);
    }
  }

  /** What is already collected stays where it is: `acc` is a prefix of the result. */
  lemma {:induction false} DedupExtends<T>(acc: seq<T>, xs: seq<T>)
    ensures |acc| <= |Dedup(acc, xs)| && Dedup(acc, xs)[..|acc|] == acc
    decreases |xs|
  {
    if xs != [] {
      DedupExtends(acc, xs[..|xs| - 1]);
      var r := Dedup(acc, xs[..|xs| - 1]);
      assert (r + [xs[|xs| - 1]])[..|acc|] == r[..|acc|];
    }
  }

  /** Nothing is collected twice. */
  lemma {:induction false} DedupNoDup<T>(acc: seq<T>, xs: seq<T>)
    requires NoDup(acc)
    ensures NoDup(Dedup(acc, xs))
    decreases |xs|
  {
    if xs != [] {
      DedupNoDup(acc, xs[..|xs| - 1]);
    }
  }

  /** Everything fed in is collected, and nothing else. */
  lemma {:induction false} DedupMembers<T>(acc: seq<T>, xs: seq<T>)
    ensures forall x :: x in Dedup(acc, xs) <==> x in acc || x in xs
    decreases |xs|
  {
    if xs != [] {
      DedupMembers(acc, xs[..|xs| - 1]);
      assert xs == xs[..|xs| - 1] + [xs[|xs| - 1]];
    }
  }

  lemma {:induction false} FirstIndexPrefix<T>(xs: seq<T>, ys: seq<T>, x: T)
    requires x in xs
    ensures x in xs + ys && FirstIndex(xs + ys, x) == FirstIndex(xs, x)
  {
    if xs[0] != x {
      assert (xs + ys)[1..] == xs[1..] + ys;
      FirstIndexPrefix(xs[1..], ys, x);
    }
  }

  lemma {:induction false} FirstIndexNew<T>(xs: seq<T>, x: T)
    requires x !in xs
    ensures x in xs + [x] && FirstIndex(xs + [x], x) == |xs|
  {
    if xs != [] {
      assert (xs + [x])[1..] == xs[1..] + [x];
      FirstIndexNew(xs[1..], x);
    }
  }

  /**
   * Collected from scratch, the elements stand in the order of their first
   * occurrences in the input.
   */
  lemma {:induction false} DedupFirstOccurrenceOrder<T>(xs: seq<T>)
    ensures InFirstOccurrenceOrder(xs, Dedup([], xs))
    decreases |xs|
  {
    if xs != [] {
      var init, x := xs[..|xs| - 1], xs[|xs| - 1];
      assert xs == init + [x];
      var q := Dedup([], init);
      DedupFirstOccurrenceOrder(init);
      DedupMembers([], init);
      OrderExtendInput(init, [x], q);
      if x !in q {
        assert x !in init && forall y :: y in q ==> y in init;
        OrderAppendNew(init, x, q);
      }
    }
  }

  /** Input added after the fact does not disturb first-occurrence order. */
  lemma OrderExtendInput<T>(xs: seq<T>, ys: seq<T>, r: seq<T>)
    requires InFirstOccurrenceOrder(xs, r)
    ensures InFirstOccurrenceOrder(xs + ys, r)
  {
    forall x | x in r ensures x in xs + ys && FirstIndex(xs + ys, x) == FirstIndex(xs, x) {
      FirstIndexPrefix(xs, ys, x);
    }
  }

  /** A new last input element, collected last, occurs first after all that was collected before. */
  lemma OrderAppendNew<T>(xs: seq<T>, x: T, r: seq<T>)
    requires InFirstOccurrenceOrder(xs + [x], r)
    requires x !in xs && forall y :: y in r ==> y in xs
    ensures InFirstOccurrenceOrder(xs + [x], r + [x])
  {
    var r' := r + [x];
    FirstIndexNew(xs, x);
    forall i, j | 0 <= i < j < |r'| ensures FirstIndex(xs + [x], r'[i]) < FirstIndex(xs + [x], r'[j]) {
      assert r'[i] == r[i] && r[i] in r;
      FirstIndexPrefix(xs, [x], r[i]);
      if j < |r| {
        assert r'[j] == r[j];
      }
    }
  }

  /** In a list in first-occurrence order, the head occurs first. */
  lemma HeadOccursFirst<T>(xs: seq<T>, r: seq<T>, x: T)
    requires InFirstOccurrenceOrder(xs, r)
    requires x in r && x != r[0]
    ensures r[0] in xs && x in xs && FirstIndex(xs, r[0]) < FirstIndex(xs, x)
  {
    var j :| 0 <= j < |r| && r[j] == x;
  }

  lemma TailMembers<T>(r: seq<T>)
    requires NoDup(r) && r != []
    ensures forall x :: x in r[1..] <==> x in r && x != r[0]
  {
    forall x | x in r && x != r[0] ensures x in r[1..] {
      var j :| 0 <= j < |r| && r[j] == x;
      assert r[1..][j - 1] == x;
    }
  }

  lemma EmptyTogether<T>(r: seq<T>, q: seq<T>)
    requires forall x :: x in r <==> x in q
    ensures r == [] <==> q == []
  {
    if r != [] {
      assert r[0] in q;
    }
    if q != [] {
      assert q[0] in r;
    }
  }

  /** Two duplicate-free lists with the same elements, both in first-occurrence order, are equal. */
  lemma {:induction false} SameOrderUnique<T>(xs: seq<T>, r: seq<T>, q: seq<T>)
    requires NoDup(r) && NoDup(q)
    requires forall x :: x in r <==> x in q
    requires InFirstOccurrenceOrder(xs, r)
    requires InFirstOccurrenceOrder(xs, q)
    ensures r == q
    decreases |r|
  {
    if r != [] && q != [] {
      if r[0] != q[0] {
        HeadOccursFirst(xs, q, r[0]);
        HeadOccursFirst(xs, r, q[0]);
      }
      TailMembers(r);
      TailMembers(q);
      SameOrderUnique(xs, r[1..], q[1..]);
      assert r == [r[0]] + r[1..] && q == [q[0]] + q[1..];
    } else {
      EmptyTogether(r, q);
    }
  }

  /**
   * The properties above pin the result down: any duplicate-free list of
   * exactly the input's elements, in first-occurrence order, is the one the
   * idiom collects.
   */
  lemma DedupCharacterized<T>(xs: seq<T>, r: seq<T>)
    requires NoDup(r)
    requires forall x :: x in r <==> x in xs
    requires InFirstOccurrenceOrder(xs, r)
    ensures r == Dedup([], xs)
  {
    DedupNoDup([], xs);
    DedupMembers([], xs);
    DedupFirstOccurrenceOrder(xs);
    SameOrderUnique(xs, r, Dedup([], xs));
  }

  /** A sequence listing a set once each, extended by an element outside the set. */
  lemma AppendFresh<T>(s: seq<T>, done: set<T>, k: T)
    requires NoDup(s) && (forall x :: x in s <==> x in done) && k !in done
    ensures NoDup(s + [k]) && forall x :: x in s + [k] <==> x in done + {k}
  {
    var s' := s + [k];
    forall i, j | 0 <= i < j < |s'| ensures s'[i] != s'[j] {
      if j == |s| {
        assert s'[i] in s;
      }
    }
  }

  /** Taking one more element of a duplicate-free sequence into the set of those taken. */
  lemma PrefixStep<T>(s: seq<T>, i: nat, done: set<T>)
    requires i < |s| && NoDup(s) && forall d :: d in done <==> d in s[..i]
    ensures s[i] !in done && forall d :: d in done + {s[i]} <==> d in s[..i + 1]
  {
    assert s[..i + 1] == s[..i] + [s[i]];
  }

  /** A prefix one element longer is the prefix followed by that element. */
  lemma TakeOneMore<T>(s: seq<T>, i: nat)
    requires i < |s|
    ensures s[..i + 1] == s[..i] + [s[i]]
  {
  }
}
