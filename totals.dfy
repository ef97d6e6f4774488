/**
 * The console summary's running totals: the walk over the sorted dates, each
 * day's projects, each project's activities and each activity's entries,
 * adding up the hours and the amount.
 */
module Totals {
  import opened Kimai
  import opened Distinct
  import opened Bags
  import opened Grouping

  /** Accumulated duration (seconds) and amount (cents). */
  datatype Total = Total(seconds: int, cents: int)

  const Nothing: Total := Total(0, 0)

  function Plus(a: Total, b: Total): Total
  {
    Total(a.seconds + b.seconds, a.cents + b.cents)
  }

  /** What one entry adds: its duration and its rate. */
  function Of(t: TimeSheet): Total
  {
    Total(t.duration, t.rate)
  }

  /** The totals of a list of entries. */
  function SeqTotal(ts: seq<TimeSheet>): Total
  {
    if ts == [] then Nothing else Plus(SeqTotal(ts[..|ts| - 1]), Of(ts[|ts| - 1]))
  }

  /** The totals with one entry more. */
  lemma SeqTotalSnoc(ts: seq<TimeSheet>, t: TimeSheet)
    ensures SeqTotal(ts + [t]) == Plus(SeqTotal(ts), Of(t))
  {
    var s := ts + [t];
    assert s[..|s| - 1] == ts;
  }

  /** The totals of the entries of two lists together. */
  lemma {:induction false} SeqTotalAppend(xs: seq<TimeSheet>, ys: seq<TimeSheet>)
    ensures SeqTotal(xs + ys) == Plus(SeqTotal(xs), SeqTotal(ys))
    decreases |ys|
  {
    if ys == [] {
      assert xs + ys == xs;
    } else {
      var init := ys[..|ys| - 1];
      assert xs + ys == (xs + init) + [ys[|ys| - 1]];
      assert (xs + ys)[..|xs + ys| - 1] == xs + init;
      SeqTotalAppend(xs, init);
    }
  }

  /** The innermost loop: each entry of one activity adds its duration and rate. */
  method AddEntries(acc: Total, entries: seq<TimeSheet>) returns (r: Total)
    ensures r == Plus(acc, SeqTotal(entries))
  {
    r := acc;
    var i := 0;
    while i < |entries|
      invariant 0 <= i <= |entries|
      invariant r == Plus(acc, SeqTotal(entries[..i]))
    {
      var timeSheet := entries[i];
      r := Total(r.seconds + timeSheet.duration, r.cents + timeSheet.rate);
      assert entries[..i + 1][..i] == entries[..i];
      i := i + 1;
    }
    assert entries[..i] == entries;
  }

  /**
   * The totals do not depend on the order the entries are added in: two
   * lists holding the same entries have the same totals.
   */
  lemma {:induction false} SeqTotalPermutation(a: seq<TimeSheet>, b: seq<TimeSheet>)
    requires multiset(a) == multiset(b)
    ensures SeqTotal(a) == SeqTotal(b)
    decreases |a|
  {
    assert |a| == |multiset(a)| == |b|;
    if a != [] {
      var init, t := a[..|a| - 1], a[|a| - 1];
      assert a == init + [t];
      assert multiset(init) == multiset(a) - multiset{t};
      assert t in multiset(b);
      var j :| 0 <= j < |b| && b[j] == t;
      RemoveAt(b, j);
      SeqTotalPermutation(init, b[..j] + b[j + 1..]);
      SeqTotalRemove(b, j);
    }
  }

  lemma RemoveAt(b: seq<TimeSheet>, j: nat)
    requires j < |b|
    ensures multiset(b[..j] + b[j + 1..]) == multiset(b) - multiset{b[j]}
  {
    assert b == b[..j] + [b[j]] + b[j + 1..];
  }

  lemma SeqTotalRemove(b: seq<TimeSheet>, j: nat)
    requires j < |b|
    ensures SeqTotal(b) == Plus(SeqTotal(b[..j] + b[j + 1..]), Of(b[j]))
  {
    SplitAt(b, j);
    SeqTotalMiddle(b[..j], b[j], b[j + 1..]);
  }

  lemma SplitAt(b: seq<TimeSheet>, j: nat)
    requires j < |b|
    ensures b == b[..j] + [b[j]] + b[j + 1..]
  {
  }

  lemma SeqTotalMiddle(x: seq<TimeSheet>, t: TimeSheet, y: seq<TimeSheet>)
    ensures SeqTotal(x + [t] + y) == Plus(SeqTotal(x + y), Of(t))
  {
    SeqTotalAppend(x + [t], y);
    SeqTotalAppend(x, [t]);
    SeqTotalAppend(x, y);
    SeqTotalOne(t);
  }

  lemma SeqTotalOne(t: TimeSheet)
    ensures SeqTotal([t]) == Of(t)
  {
    assert [t][..0] == [];
  }

  /** The loop over one project's activities, in map order; `visited` lists the entries in the order added. */
  method AddActivities(acc: Total, g: ProjectEntries) returns (r: Total, ghost visited: seq<TimeSheet>)
    ensures multiset(visited) == ProjectLeaves(g)
    ensures r == Plus(acc, SeqTotal(visited))
  {
    r := acc;
    visited := [];
    var keys := g.entries.Keys;
    ghost var done: set<string> := {};
    while keys != {}
      invariant done !! keys && done + keys == g.entries.Keys
      invariant multiset(visited) == SumOver(g.entries, done, ActivityLeaves)
      invariant r == Plus(acc, SeqTotal(visited))
      decreases keys
    {
      var k :| k in keys;
      r := AddEntries(r, g.entries[k].entries);
      SumOverVisit(g.entries, done, ActivityLeaves, k);
      SeqTotalAppend(visited, g.entries[k].entries);
      visited := visited + g.entries[k].entries;
      MoveKey(done, keys, k);
      keys := keys - {k};
      done := done + {k};
    }
    assert done == g.entries.Keys;
  }

  /** The loop over one day's projects, in map order. */
  method AddProjects(acc: Total, g: DateEntries) returns (r: Total, ghost visited: seq<TimeSheet>)
    ensures multiset(visited) == DateLeaves(g)
    ensures r == Plus(acc, SeqTotal(visited))
  {
    r := acc;
    visited := [];
    var keys := g.entries.Keys;
    ghost var done: set<string> := {};
    while keys != {}
      invariant done !! keys && done + keys == g.entries.Keys
      invariant multiset(visited) == SumOver(g.entries, done, ProjectLeaves)
      invariant r == Plus(acc, SeqTotal(visited))
      decreases keys
    {
      var k :| k in keys;
      ghost var more;
      r, more := AddActivities(r, g.entries[k]);
      SumOverVisit(g.entries, done, ProjectLeaves, k);
      SeqTotalAppend(visited, more);
      visited := visited + more;
      MoveKey(done, keys, k);
      keys := keys - {k};
      done := done + {k};
    }
    assert done == g.entries.Keys;
  }

  /**
   * The walk over the sorted date keys. Visiting every key of the
   * hierarchy once, it adds up every entry the hierarchy reaches, once each.
   */
  method Sum(entries: Hierarchy, dates: seq<string>) returns (r: Total, ghost visited: seq<TimeSheet>)
    requires NoDup(dates) && forall d :: d in dates <==> d in entries
    ensures multiset(visited) == Leaves(entries)
    ensures r == SeqTotal(visited)
  {
    r := Nothing;
    visited := [];
    ghost var done: set<string> := {};
    var i := 0;
    while i < |dates|
      invariant i <= |dates|
      invariant SummedUpTo(entries, dates, i, done, visited)
      invariant r == SeqTotal(visited)
    {
      var date := dates[i];
      ghost var more;
      r, more := AddProjects(r, entries[date]);
      SumStep(entries, dates, i, done, visited, more);
      SeqTotalAppend(visited, more);
      visited := visited + more;
      done := done + {date};
      i := i + 1;
    }
    assert dates[..i] == dates;
    assert done == entries.Keys;
  }

  /** The entries of the first `n` days of `dates` (the set `done`) are visited. */
  ghost predicate SummedUpTo(entries: Hierarchy, dates: seq<string>, n: nat, done: set<string>, visited: seq<TimeSheet>)
  {
    && n <= |dates|
    && (forall d :: d in done <==> d in dates[..n])
    && done <= entries.Keys
    && multiset(visited) == SumOver(entries, done, DateLeaves)
  }

  lemma SumStep(entries: Hierarchy, dates: seq<string>, n: nat, done: set<string>, visited: seq<TimeSheet>, more: seq<TimeSheet>)
    requires NoDup(dates) && (forall d :: d in dates <==> d in entries) && n < |dates|
    requires SummedUpTo(entries, dates, n, done, visited)
    requires multiset(more) == DateLeaves(entries[dates[n]])
    ensures SummedUpTo(entries, dates, n + 1, done + {dates[n]}, visited + more)
  {
    PrefixStep(dates, n, done);
    SumOverVisit(entries, done, DateLeaves, dates[n]);
  }

  /**
   * For a hierarchy that reaches exactly the input entries, the totals are
   * the sums of all input durations and rates, whatever order the maps are
   * walked in.
   */
  lemma TotalsOfInput(ts: seq<TimeSheet>, entries: Hierarchy, visited: seq<TimeSheet>)
    requires Leaves(entries) == multiset(ts) && multiset(visited) == Leaves(entries)
    ensures SeqTotal(visited) == SeqTotal(ts)
  {
    SeqTotalPermutation(visited, ts);
  }
}
