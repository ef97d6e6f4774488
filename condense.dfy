/**
 * The condensed CSV mode's aggregation for one (day, project) group: the
 * summed duration and amount of all its entries, and the list of what was
 * done, taken from the comma-separated pieces of each description, trimmed
 * of white space and kept once each in the order first met.
 */
module Condense {
  import opened Kimai
  import opened Text
  import opened Distinct
  import opened Bags
  import opened Grouping
  import opened Totals

  /** Each piece with its surrounding white space trimmed off. */
  function Trimmed(parts: seq<string>): seq<string>
  {
    if parts == [] then [] else Trimmed(parts[..|parts| - 1]) + [TrimSpace(parts[|parts| - 1])]
  }

  /** The pieces of one description: split at commas, then trimmed. */
  function Doings(description: string): seq<string>
  {
    Trimmed(Split(description, ','))
  }

  /** The pieces of one entry's description. */
  function PiecesOf(t: TimeSheet): seq<string>
  {
    Doings(t.description)
  }

  /** `f` of each item, concatenated in the order of the items. */
  function FlatMap<T, U>(f: T -> seq<U>, xs: seq<T>): seq<U>
  {
    if xs == [] then [] else FlatMap(f, xs[..|xs| - 1]) + f(xs[|xs| - 1])
  }

  /** The pieces of all the descriptions, in the order of the entries. */
  function Fragments(es: seq<TimeSheet>): seq<string>
  {
    FlatMap(PiecesOf, es)
  }

  /** The entries of the given activities, one activity after the other. */
  function Flatten(m: map<string, ActivityEntries>, order: seq<string>): seq<TimeSheet>
    requires forall i :: 0 <= i < |order| ==> order[i] in m
  {
    if order == [] then [] else Flatten(m, order[..|order| - 1]) + m[order[|order| - 1]].entries
  }

  lemma {:induction false} FlatMapAppend<T, U>(f: T -> seq<U>, xs: seq<T>, ys: seq<T>)
    ensures FlatMap(f, xs + ys) == FlatMap(f, xs) + FlatMap(f, ys)
    decreases |ys|
  {
    if ys == [] {
      assert xs + ys == xs;
    } else {
      var zs := xs + ys;
      assert zs[..|zs| - 1] == xs + ys[..|ys| - 1] && zs[|zs| - 1] == ys[|ys| - 1];
      FlatMapAppend(f, xs, ys[..|ys| - 1]);
    }
  }

  lemma FragmentsAppend(xs: seq<TimeSheet>, ys: seq<TimeSheet>)
    ensures Fragments(xs + ys) == Fragments(xs) + Fragments(ys)
  {
    FlatMapAppend(PiecesOf, xs, ys);
  }

  /** The inner loop over one description's pieces: each new trimmed piece is appended. */
  method AddDoings(doings: seq<string>, description: string) returns (r: seq<string>)
    ensures r == Dedup(doings, Doings(description))
  {
    var parts := Split(description, ',');
    r := doings;
    var i := 0;
    while i < |parts|
      invariant 0 <= i <= |parts|
      invariant r == Dedup(doings, Trimmed(parts[..i]))
    {
      var doing := TrimSpace(parts[i]);
      if doing !in r {
        r := r + [doing];
      }
      DoingStep(doings, parts, i);
      i := i + 1;
    }
    assert parts[..i] == parts;
  }

  /** One more piece: it is added unless already there. */
  lemma DoingStep(doings: seq<string>, parts: seq<string>, i: nat)
    requires i < |parts|
    ensures Dedup(doings, Trimmed(parts[..i + 1])) == AddNew(Dedup(doings, Trimmed(parts[..i])), TrimSpace(parts[i]))
  {
    var next := Trimmed(parts[..i]) + [TrimSpace(parts[i])];
    TrimmedOneMore(parts, i);
    assert next[..|next| - 1] == Trimmed(parts[..i]);
  }

  lemma TrimmedOneMore(parts: seq<string>, i: nat)
    requires i < |parts|
    ensures Trimmed(parts[..i + 1]) == Trimmed(parts[..i]) + [TrimSpace(parts[i])]
  {
    var prefix := parts[..i + 1];
    assert prefix[..|prefix| - 1] == parts[..i];
  }

  /** The loop over one activity's entries: collect their pieces and add up duration and amount. */
  method CondenseEntries(doings: seq<string>, total: Total, es: seq<TimeSheet>) returns (doings': seq<string>, total': Total)
    ensures doings' == Dedup(doings, Fragments(es))
    ensures total' == Plus(total, SeqTotal(es))
  {
    doings', total' := doings, total;
    var i := 0;
    while i < |es|
      invariant 0 <= i <= |es|
      invariant CondensedOver(doings, total, es[..i], doings', total')
    {
      var timeSheet := es[i];
      CondensedStep(doings, total, es[..i], timeSheet, doings', total');
      doings' := AddDoings(doings', timeSheet.description);
      total' := Total(total'.seconds + timeSheet.duration, total'.cents + timeSheet.rate);
      TakeOneMore(es, i);
      i := i + 1;
    }
    assert es[..i] == es;
  }

  /** The state of that loop once the entries `done` are condensed. */
  ghost predicate CondensedOver(doings: seq<string>, total: Total, done: seq<TimeSheet>, doings': seq<string>, total': Total)
  {
    doings' == Dedup(doings, Fragments(done)) && total' == Plus(total, SeqTotal(done))
  }

  /** One more entry: its pieces are added after the others, its figures to the totals. */
  lemma CondensedStep(doings: seq<string>, total: Total, done: seq<TimeSheet>, t: TimeSheet, doings': seq<string>, total': Total)
    requires CondensedOver(doings, total, done, doings', total')
    ensures CondensedOver(doings, total, done + [t], Dedup(doings', Doings(t.description)), Total(total'.seconds + t.duration, total'.cents + t.rate))
  {
    DoingsSnoc(doings, done, t);
    SeqTotalSnoc(done, t);
  }

  lemma DoingsSnoc(doings: seq<string>, done: seq<TimeSheet>, t: TimeSheet)
    ensures Dedup(doings, Fragments(done + [t])) == Dedup(Dedup(doings, Fragments(done)), Doings(t.description))
  {
    FragmentsSnoc(done, t);
    DedupAppend(doings, Fragments(done), Doings(t.description));
  }

  lemma FragmentsSnoc(es: seq<TimeSheet>, t: TimeSheet)
    ensures Fragments(es + [t]) == Fragments(es) + Doings(t.description)
  {
    var s := es + [t];
    assert s[..|s| - 1] == es;
  }

  /**
   * A partial visit of a project's activities: `order` lists the visited keys
   * `done` once each, and `visited` holds their entries, activity by activity.
   */
  ghost predicate VisitOf(g: ProjectEntries, done: set<string>, order: seq<string>, visited: seq<TimeSheet>)
  {
    && done <= g.entries.Keys
    && NoDup(order) && (forall k :: k in order <==> k in done)
    && visited == Flatten(g.entries, order)
    && multiset(visited) == SumOver(g.entries, done, ActivityLeaves)
  }

  lemma VisitStep(g: ProjectEntries, done: set<string>, order: seq<string>, visited: seq<TimeSheet>, k: string)
    requires VisitOf(g, done, order, visited) && k in g.entries && k !in done
    ensures VisitOf(g, done + {k}, order + [k], visited + g.entries[k].entries)
  {
    AppendFresh(order, done, k);
    SumOverVisit(g.entries, done, ActivityLeaves, k);
    var order' := order + [k];
    assert order'[..|order'| - 1] == order;
  }

  /**
   * The loop over one project's activities, in map order: the totals and
   * the pieces of the entries visited, where the visit takes the activities
   * in some order (`order`, each key once) and each activity's entries in
   * their own order.
   */
  method CondenseProject(g: ProjectEntries) returns (total: Total, doings: seq<string>, ghost order: seq<string>, ghost visited: seq<TimeSheet>)
    ensures NoDup(order) && forall k :: k in order <==> k in g.entries
    ensures visited == Flatten(g.entries, order)
    ensures multiset(visited) == ProjectLeaves(g)
    ensures total == SeqTotal(visited)
    ensures doings == Dedup([], Fragments(visited))
  {
    total, doings := Nothing, [];
    order, visited := [], [];
    var keys := g.entries.Keys;
    ghost var done: set<string> := {};
    while keys != {}
      invariant done !! keys && done + keys == g.entries.Keys
      invariant VisitOf(g, done, order, visited)
      invariant total == SeqTotal(visited)
      invariant doings == Dedup([], Fragments(visited))
      decreases keys
    {
      var k :| k in keys;
      var es := g.entries[k].entries;
      doings, total := CondenseEntries(doings, total, es);
      SeqTotalAppend(visited, es);
      FragmentsAppend(visited, es);
      DedupAppend([], Fragments(visited), Fragments(es));
      VisitStep(g, done, order, visited, k);
      order := order + [k];
      visited := visited + es;
      MoveKey(done, keys, k);
      keys := keys - {k};
      done := done + {k};
    }
  }

  lemma {:induction false} TrimmedMembers(parts: seq<string>, x: string)
    ensures x in Trimmed(parts) <==> exists p :: p in parts && x == TrimSpace(p)
  {
    if parts != [] {
      var init := parts[..|parts| - 1];
      TrimmedMembers(init, x);
      assert parts == init + [parts[|parts| - 1]];
    }
  }

  /** Every piece is free of commas and of white space at either end. */
  lemma DoingShape(description: string, x: string)
    requires x in Doings(description)
    ensures ',' !in x
    ensures x == [] || (!IsSpace(x[0]) && !IsSpace(x[|x| - 1]))
  {
    TrimmedMembers(Split(description, ','), x);
    var p :| p in Split(description, ',') && x == TrimSpace(p);
    var i := TrimSpaceShape(p);
  }

  /** A piece occurs among the fragments iff it is a piece of some entry's description. */
  lemma {:induction false} FragmentsMembers(es: seq<TimeSheet>, x: string)
    ensures x in Fragments(es) <==> exists t :: t in es && x in Doings(t.description)
  {
    if es != [] {
      var init := es[..|es| - 1];
      FragmentsMembers(init, x);
      assert es == init + [es[|es| - 1]];
    }
  }

  /**
   * The description column of a condensed row: every piece of every entry
   * visited occurs exactly once, nothing else does, and the pieces stand in
   * the order of their first occurrence.
   */
  lemma DoingsOfGroup(visited: seq<TimeSheet>)
    ensures NoDup(Dedup([], Fragments(visited)))
    ensures forall x :: x in Dedup([], Fragments(visited)) <==> exists t :: t in visited && x in Doings(t.description)
    ensures InFirstOccurrenceOrder(Fragments(visited), Dedup([], Fragments(visited)))
  {
    DedupNoDup([], Fragments(visited));
    DedupMembers([], Fragments(visited));
    DedupFirstOccurrenceOrder(Fragments(visited));
    forall x ensures x in Fragments(visited) <==> exists t :: t in visited && x in Doings(t.description) {
      FragmentsMembers(visited, x);
    }
  }

  /** The visit order of the activities only changes the order of the pieces, not which pieces there are. */
  lemma PiecesOfAnyVisit(g: ProjectEntries, visited: seq<TimeSheet>, x: string)
    requires multiset(visited) == ProjectLeaves(g)
    ensures x in Dedup([], Fragments(visited)) <==> exists t :: t in ProjectLeaves(g) && x in Doings(t.description)
  {
    DoingsOfGroup(visited);
    forall t ensures t in visited <==> t in ProjectLeaves(g) {
      assert t in visited <==> t in multiset(visited);
    }
  }
}
