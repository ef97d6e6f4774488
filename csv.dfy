/**
 * The CSV file the report writes: a header line, then, for every sorted day
 * and every project of that day (in map order), either one line per entry
 * (the extended mode) or one line summing up the whole project-day (the
 * condensed mode). Fields are separated by ';' and written unquoted.
 */
module Csv {
  import opened Kimai
  import opened Text
  import opened Layout
  import opened Distinct
  import opened Bags
  import opened Grouping
  import opened Totals
  import opened Condense

  const ExtendedHeader: string := "Datum;Beginn;Ende;Dauer;Projekt;Tätigkeit;Beschreibung;Preis\n"
  const CondensedHeader: string := "Datum;Beginn;Ende;Dauer;Projekt;Beschreibung;Preis\n"

  // ---------------------------------------------------------------------
  // Numbers printed with `%.2f`

  /** A sign for negative numbers, the whole part, a point and two decimals of `hundredths`. */
  function Fixed2(negative: bool, hundredths: nat): string
  {
    (if negative then "-" else "") + Unsigned2(hundredths)
  }

  /** An amount of money in cents, as `%.2f` prints the euro amount. */
  function Money(cents: int): string
  {
    Fixed2(cents < 0, if cents < 0 then -cents else cents)
  }

  /** The hundredths of an hour nearest to `seconds` (halves rounded away from zero). */
  function HundredthsOfHour(seconds: nat): nat
  {
    (seconds + 18) / 36
  }

  /** A duration in seconds, as `%.2f` prints it in hours. */
  function Hours(seconds: int): string
  {
    Fixed2(seconds < 0, HundredthsOfHour(if seconds < 0 then -seconds else seconds))
  }

  /** The printed hours are within half a hundredth of the exact duration. */
  lemma HoursRounding(seconds: nat)
    ensures 36 * HundredthsOfHour(seconds) <= seconds + 18 < 36 * HundredthsOfHour(seconds) + 36
  {
  }

  /** The unsigned part of a `Fixed2` text. */
  function Unsigned2(hundredths: nat): string
  {
    Itoa(hundredths / 100) + "." + FormatInt(hundredths % 100, 2)
  }

  /** Digits, a point and two digits, which together denote the hundredths. */
  lemma Unsigned2Reads(hundredths: nat)
    ensures
      var body := Unsigned2(hundredths);
      && |body| >= 4 && body[0] != '-' && body[|body| - 3] == '.'
      && AllDigits(body[..|body| - 3]) && AllDigits(body[|body| - 2..])
      && Value(body[..|body| - 3]) * 100 + Value(body[|body| - 2..]) == hundredths
  {
    var whole, cents := Itoa(hundredths / 100), FormatInt(hundredths % 100, 2);
    FormatIntValue(hundredths / 100, 1);
    FieldOfWidth(hundredths % 100, 2);
    var body := whole + "." + cents;
    assert body[..|body| - 3] == whole && body[|body| - 2..] == cents;
    assert body[0] == whole[0];
    assert Value(whole) * 100 + Value(cents) == hundredths / 100 * 100 + hundredths % 100;
  }

  /**
   * How a `Fixed2` text reads back: a '-' exactly for negatives, then
   * digits, a point and two digits, which together denote the hundredths.
   */
  lemma Fixed2Reads(negative: bool, hundredths: nat)
    ensures
      var r := Fixed2(negative, hundredths);
      var body := if negative then r[1..] else r;
      && (|r| > 0 && r[0] == '-' <==> negative)
      && body == Unsigned2(hundredths)
      && |body| >= 4 && body[0] != '-' && body[|body| - 3] == '.'
      && AllDigits(body[..|body| - 3]) && AllDigits(body[|body| - 2..])
      && Value(body[..|body| - 3]) * 100 + Value(body[|body| - 2..]) == hundredths
  {
    Unsigned2Reads(hundredths);
    var r := Fixed2(negative, hundredths);
    assert r == (if negative then "-" else "") + Unsigned2(hundredths);
  }

  /** Digits are plain text: no sign, separator or line break among them. */
  lemma DigitsPlain(s: string)
    requires AllDigits(s)
    ensures ';' !in s && '\n' !in s
  {
  }

  /** Neither a separator nor a line break occurs in a printed number. */
  lemma Fixed2Plain(negative: bool, hundredths: nat)
    ensures ';' !in Fixed2(negative, hundredths) && '\n' !in Fixed2(negative, hundredths)
  {
    var whole, cents := Itoa(hundredths / 100), FormatInt(hundredths % 100, 2);
    FormatIntValue(hundredths / 100, 1);
    FieldOfWidth(hundredths % 100, 2);
    DigitsPlain(whole);
    DigitsPlain(cents);
    assert Unsigned2(hundredths) == whole + "." + cents;
  }

  // ---------------------------------------------------------------------
  // Lines

  /** One line of the file: the fields joined with ';', then a line break. */
  function Row(fields: seq<string>): string
  {
    Join(fields, ";") + "\n"
  }

  /** A field that can be written unquoted without changing the columns. */
  predicate Plain(field: string)
  {
    ';' !in field && '\n' !in field
  }

  /** A line read back: split at ';' after dropping the line break, it gives its fields. */
  lemma RowFields(fields: seq<string>)
    requires |fields| >= 1 && forall i :: 0 <= i < |fields| ==> Plain(fields[i])
    ensures |Row(fields)| >= 1 && Row(fields)[|Row(fields)| - 1] == '\n'
    ensures Split(Row(fields)[..|Row(fields)| - 1], ';') == fields
  {
    var r := Row(fields);
    assert r[..|r| - 1] == Join(fields, [';']);
    SplitJoin(fields, ';');
  }

  /** The extended line of one entry, under its day's date and its project's name. */
  function DetailRow(formattedDate: string, projectName: string, activityName: string, t: TimeSheet): string
  {
    Row([formattedDate, Clock(t.begin), Clock(t.end), Hours(t.duration), projectName, activityName, t.description,
         Money(t.rate) + " €"])
  }

  /** The name of the activity an entry refers to, or "" when the activity is unknown. */
  function ActivityName(am: map<string, Activity>, t: TimeSheet): string
  {
    Lookup(am, ActivityKeyOf(t), ZeroActivity).name
  }

  /** `f` of each item, in the order of the items. */
  function MapSeq<T, U>(f: T -> U, xs: seq<T>): (r: seq<U>)
    ensures |r| == |xs|
  {
    if xs == [] then [] else MapSeq(f, xs[..|xs| - 1]) + [f(xs[|xs| - 1])]
  }

  lemma {:induction false} MapSeqAppend<T, U>(f: T -> U, xs: seq<T>, ys: seq<T>)
    ensures MapSeq(f, xs + ys) == MapSeq(f, xs) + MapSeq(f, ys)
    decreases |ys|
  {
    if ys == [] {
      assert xs + ys == xs;
    } else {
      var zs := xs + ys;
      assert zs[..|zs| - 1] == xs + ys[..|ys| - 1] && zs[|zs| - 1] == ys[|ys| - 1];
      MapSeqAppend(f, xs, ys[..|ys| - 1]);
    }
  }

  /** The extended line of each entry under a day and a project. */
  function DetailLine(formattedDate: string, projectName: string, am: map<string, Activity>): TimeSheet -> string
  {
    t => DetailRow(formattedDate, projectName, ActivityName(am, t), t)
  }

  /** The extended lines of a run of entries, in order. */
  function DetailRows(formattedDate: string, projectName: string, am: map<string, Activity>, es: seq<TimeSheet>): seq<string>
  {
    MapSeq(DetailLine(formattedDate, projectName, am), es)
  }

  /**
   * The condensed line of one project-day: the block starts at 09:00 and
   * lasts the summed duration, then come the summed hours, the project, the
   * pieces of the descriptions joined with ", ", and the summed amount.
   */
  function CondensedRow(formattedDate: string, projectName: string, total: Total, doings: seq<string>): string
  {
    Row([formattedDate, ClockAfterMidnight(NineOClock), ClockAfterMidnight(NineOClock + total.seconds),
         Hours(total.seconds), projectName, Join(doings, ", "), Money(total.cents) + " €"])
  }

  /** The condensed block begins at 09:00 and ends the summed duration later, on the clock. */
  lemma CondensedClock(seconds: int)
    ensures ClockAfterMidnight(NineOClock) == "09:00"
    ensures
      var e := ClockAfterMidnight(NineOClock + seconds);
      Value(e[..2]) * 60 + Value(e[3..]) == ((9 * 3600 + seconds) % 86400) / 60
  {
    NineOClockText();
  }

  lemma NineOClockText()
    ensures ClockAfterMidnight(NineOClock) == "09:00"
  {
    var s := NineOClock % SecondsPerDay;
    assert s == 32400 && s / 3600 == 9 && s % 3600 / 60 == 0;
    assert ClockAfterMidnight(NineOClock) == ClockText(9, 0);
    OneDigitField(9);
    OneDigitField(0);
  }

  lemma OneDigitField(n: nat)
    requires n < 10
    ensures FormatInt(n, 2) == ['0', DigitChar(n)]
  {
    assert Digits(n) == [DigitChar(n)];
    assert Zeros(1) == ['0'];
  }

  lemma DetailRowsAppend(formattedDate: string, projectName: string, am: map<string, Activity>, xs: seq<TimeSheet>, ys: seq<TimeSheet>)
    ensures DetailRows(formattedDate, projectName, am, xs + ys)
      == DetailRows(formattedDate, projectName, am, xs) + DetailRows(formattedDate, projectName, am, ys)
  {
    MapSeqAppend(DetailLine(formattedDate, projectName, am), xs, ys);
  }

  // ---------------------------------------------------------------------
  // Writing the lines of one project-day

  /** The innermost loop of the extended mode: one line per entry of an activity. */
  method WriteEntries(formattedDate: string, projectName: string, activityMap: map<string, Activity>, es: seq<TimeSheet>)
    returns (lines: seq<string>)
    ensures lines == DetailRows(formattedDate, projectName, activityMap, es)
  {
    lines := [];
    var i := 0;
    while i < |es|
      invariant 0 <= i <= |es|
      invariant lines == DetailRows(formattedDate, projectName, activityMap, es[..i])
    {
      var timeSheet := es[i];
      var activityName := Lookup(activityMap, Itoa(timeSheet.activityId), ZeroActivity).name;
      lines := lines + [DetailRow(formattedDate, projectName, activityName, timeSheet)];
      assert es[..i + 1][..i] == es[..i] && es[..i + 1][i] == timeSheet;
      i := i + 1;
    }
    assert es[..i] == es;
  }

  /**
   * The extended lines of one project-day: the activities in map order,
   * each with its entries in order, one line per entry.
   */
  method DetailedProject(formattedDate: string, g: ProjectEntries, activityMap: map<string, Activity>)
    returns (lines: seq<string>, ghost order: seq<string>, ghost visited: seq<TimeSheet>)
    ensures VisitOf(g, g.entries.Keys, order, visited)
    ensures lines == DetailRows(formattedDate, g.project.name, activityMap, visited)
  {
    lines := [];
    order, visited := [], [];
    var keys := g.entries.Keys;
    ghost var done: set<string> := {};
    while keys != {}
      invariant done !! keys && done + keys == g.entries.Keys
      invariant VisitOf(g, done, order, visited)
      invariant lines == DetailRows(formattedDate, g.project.name, activityMap, visited)
      decreases keys
    {
      var k :| k in keys;
      var es := g.entries[k].entries;
      var more := WriteEntries(formattedDate, g.project.name, activityMap, es);
      lines := lines + more;
      DetailRowsAppend(formattedDate, g.project.name, activityMap, visited, es);
      VisitStep(g, done, order, visited, k);
      order := order + [k];
      visited := visited + es;
      MoveKey(done, keys, k);
      keys := keys - {k};
      done := done + {k};
    }
  }

  /** The condensed line of one project-day. */
  method CondensedLine(formattedDate: string, g: ProjectEntries)
    returns (line: string, ghost order: seq<string>, ghost visited: seq<TimeSheet>)
    ensures VisitOf(g, g.entries.Keys, order, visited)
    ensures line == CondensedRow(formattedDate, g.project.name, SeqTotal(visited), Dedup([], Fragments(visited)))
  {
    var total, doings;
    total, doings, order, visited := CondenseProject(g);
    line := CondensedRow(formattedDate, g.project.name, total, doings);
  }

  // ---------------------------------------------------------------------
  // Where each line comes from

  /**
   * The source of a line: one entry (extended), or the entries of one
   * project-day in visit order, together with the order its activities
   * were visited in (condensed).
   */
  datatype Origin =
    | Entry(day: string, project: string, entry: TimeSheet)
    | Group(day: string, project: string, order: seq<string>, entries: seq<TimeSheet>)

  /** The origin names a project group of the hierarchy. */
  predicate Located(h: Hierarchy, o: Origin)
  {
    o.day in h && o.project in h[o.day].entries
  }

  /**
   * The origin's entries are an entry of the project group it names, or all
   * of that group's entries as its map walk visits them: each activity once,
   * in `order`, and each activity's entries in their own order.
   */
  ghost predicate Reaches(h: Hierarchy, o: Origin)
  {
    Located(h, o) &&
    var g := h[o.day].entries[o.project];
    match o
    case Entry(_, _, t) => t in ProjectLeaves(g)
    case Group(_, _, order, es) => VisitOf(g, g.entries.Keys, order, es)
  }

  /** The line an origin gives, under its day's `Date` and its project's name. */
  function LineOf(h: Hierarchy, am: map<string, Activity>, o: Origin): string
  {
    if !Located(h, o) then ""
    else
      var formattedDate := GermanDate(h[o.day].date);
      var projectName := h[o.day].entries[o.project].project.name;
      match o
      case Entry(_, _, t) => DetailRow(formattedDate, projectName, ActivityName(am, t), t)
      case Group(_, _, _, es) => CondensedRow(formattedDate, projectName, SeqTotal(es), Dedup([], Fragments(es)))
  }

  function LineIn(h: Hierarchy, am: map<string, Activity>): Origin -> string
  {
    o => LineOf(h, am, o)
  }

  /** The lines of a sequence of origins. */
  function Lines(h: Hierarchy, am: map<string, Activity>, os: seq<Origin>): seq<string>
  {
    MapSeq(LineIn(h, am), os)
  }

  function EntryList(o: Origin): seq<TimeSheet>
  {
    match o
    case Entry(_, _, t) => [t]
    case Group(_, _, _, es) => es
  }

  /** The entries behind a sequence of lines, in line order. */
  function EntriesOf(os: seq<Origin>): seq<TimeSheet>
  {
    FlatMap(EntryList, os)
  }

  function PairOf(o: Origin): (string, string) { (o.day, o.project) }

  /** The (day, project) group of each line. */
  function PairsOf(os: seq<Origin>): seq<(string, string)>
  {
    MapSeq(PairOf, os)
  }

  function ProjectOf(o: Origin): string { o.project }

  function ProjectsOf(os: seq<Origin>): seq<string>
  {
    MapSeq(ProjectOf, os)
  }

  function AsEntry(day: string, project: string): TimeSheet -> Origin
  {
    t => Entry(day, project, t)
  }

  /** One origin per entry of a project-day, in order. */
  function EntryOrigins(day: string, project: string, es: seq<TimeSheet>): seq<Origin>
  {
    MapSeq(AsEntry(day, project), es)
  }

  /** The origins of a project-day's entries give its extended lines, and its entries back. */
  lemma EntryOriginsLines(h: Hierarchy, am: map<string, Activity>, day: string, project: string, es: seq<TimeSheet>)
    requires day in h && project in h[day].entries
    ensures Lines(h, am, EntryOrigins(day, project, es))
      == DetailRows(GermanDate(h[day].date), h[day].entries[project].project.name, am, es)
    ensures EntriesOf(EntryOrigins(day, project, es)) == es
  {
    var os := EntryOrigins(day, project, es);
    var f := DetailLine(GermanDate(h[day].date), h[day].entries[project].project.name, am);
    forall i | 0 <= i < |es| ensures Lines(h, am, os)[i] == DetailRows(GermanDate(h[day].date), h[day].entries[project].project.name, am, es)[i] {
      MapSeqAt(AsEntry(day, project), es, i);
      MapSeqAt(LineIn(h, am), os, i);
      MapSeqAt(f, es, i);
    }
    EntryOriginsEntries(day, project, es);
  }

  lemma {:induction false} EntryOriginsEntries(day: string, project: string, es: seq<TimeSheet>)
    ensures EntriesOf(EntryOrigins(day, project, es)) == es
  {
    if es != [] {
      var init := es[..|es| - 1];
      EntryOriginsEntries(day, project, init);
      var os := EntryOrigins(day, project, es);
      assert os[..|os| - 1] == EntryOrigins(day, project, init);
    }
  }

  lemma OriginsAppend(h: Hierarchy, am: map<string, Activity>, os: seq<Origin>, more: seq<Origin>)
    ensures Lines(h, am, os + more) == Lines(h, am, os) + Lines(h, am, more)
    ensures EntriesOf(os + more) == EntriesOf(os) + EntriesOf(more)
    ensures ProjectsOf(os + more) == ProjectsOf(os) + ProjectsOf(more)
    ensures PairsOf(os + more) == PairsOf(os) + PairsOf(more)
  {
    MapSeqAppend(LineIn(h, am), os, more);
    FlatMapAppend(EntryList, os, more);
    MapSeqAppend(ProjectOf, os, more);
    MapSeqAppend(PairOf, os, more);
  }

  lemma ProjectsOfSnoc(os: seq<Origin>, o: Origin)
    ensures ProjectsOf(os + [o]) == ProjectsOf(os) + [o.project]
  {
    MapSeqAppend(ProjectOf, os, [o]);
  }

  lemma {:induction false} MapSeqAt<T, U>(f: T -> U, xs: seq<T>, j: nat)
    requires j < |xs|
    ensures MapSeq(f, xs)[j] == f(xs[j])
  {
    if j < |xs| - 1 {
      MapSeqAt(f, xs[..|xs| - 1], j);
    }
  }

  // ---------------------------------------------------------------------
  // Project-day blocks and the lines they give

  /** The extended origins of a project-day block: one per entry, in order. */
  function Expand(b: Origin): seq<Origin>
  {
    EntryOrigins(b.day, b.project, EntryList(b))
  }

  /** The extended origins of a sequence of project-day blocks, block after block. */
  function Expanded(blocks: seq<Origin>): seq<Origin>
  {
    FlatMap(Expand, blocks)
  }

  /**
   * The origins of the lines written for `blocks`: one per entry of each
   * block in the extended mode, one per block in the condensed mode.
   */
  function Trace(extended: bool, blocks: seq<Origin>): seq<Origin>
  {
    if extended then Expanded(blocks) else blocks
  }

  lemma TraceAppend(extended: bool, blocks: seq<Origin>, more: seq<Origin>)
    ensures Trace(extended, blocks + more) == Trace(extended, blocks) + Trace(extended, more)
  {
    FlatMapAppend(Expand, blocks, more);
  }

  lemma EntriesOfSnoc(blocks: seq<Origin>, b: Origin)
    ensures EntriesOf(blocks + [b]) == EntriesOf(blocks) + EntryList(b)
  {
    assert (blocks + [b])[..|blocks|] == blocks;
  }

  /** The origins of a project-day's entries are entry origins of that day and project. */
  lemma EntryOriginsShape(day: string, project: string, es: seq<TimeSheet>)
    ensures forall o | o in EntryOrigins(day, project, es) :: o.Entry? && o.day == day && o.project == project && o.entry in es
  {
    var os := EntryOrigins(day, project, es);
    forall o | o in os ensures o.Entry? && o.day == day && o.project == project && o.entry in es {
      var j :| 0 <= j < |os| && os[j] == o;
      MapSeqAt(AsEntry(day, project), es, j);
    }
  }

  /** Expanding blocks keeps their entries, in order. */
  lemma {:induction false} ExpandedEntries(blocks: seq<Origin>)
    ensures EntriesOf(Expanded(blocks)) == EntriesOf(blocks)
  {
    if blocks != [] {
      var init, b := blocks[..|blocks| - 1], blocks[|blocks| - 1];
      ExpandedEntries(init);
      FlatMapAppend(EntryList, Expanded(init), Expand(b));
      EntryOriginsEntries(b.day, b.project, EntryList(b));
    }
  }

  /** The entry origins of blocks of day `d` are of day `d`. */
  lemma {:induction false} ExpandedDays(blocks: seq<Origin>, d: string)
    requires forall b | b in blocks :: b.day == d
    ensures forall o | o in Expanded(blocks) :: o.day == d
  {
    if blocks != [] {
      var init, b := blocks[..|blocks| - 1], blocks[|blocks| - 1];
      assert forall x | x in init :: x in blocks;
      ExpandedDays(init, d);
      EntryOriginsShape(b.day, b.project, EntryList(b));
      assert forall o | o in Expanded(blocks) :: o in Expanded(init) || o in Expand(b);
    }
  }

  /** Every line of a project-day walk reaches one of that project's entries. */
  lemma EntryOriginsReach(h: Hierarchy, date: string, p: string, order: seq<string>, visited: seq<TimeSheet>)
    requires date in h && p in h[date].entries
    requires VisitOf(h[date].entries[p], h[date].entries[p].entries.Keys, order, visited)
    ensures forall o | o in EntryOrigins(date, p, visited) :: o.day == date && o.Entry? && Reaches(h, o)
  {
    var more := EntryOrigins(date, p, visited);
    var g := h[date].entries[p];
    assert multiset(visited) == ProjectLeaves(g);
    EntryOriginsLines(h, map[], date, p, visited);
    forall o | o in more ensures o.day == date && o.Entry? && Reaches(h, o) {
      var j :| 0 <= j < |more| && more[j] == o;
      MapSeqAt(AsEntry(date, p), visited, j);
      assert o == Entry(date, p, visited[j]);
      assert visited[j] in multiset(visited);
    }
  }

  /** The entry origins of walks of their project groups each reach into their group. */
  lemma {:induction false} ExpandedReach(h: Hierarchy, blocks: seq<Origin>)
    requires forall b | b in blocks :: b.Group? && Reaches(h, b)
    ensures forall o | o in Expanded(blocks) :: o.Entry? && Reaches(h, o)
  {
    if blocks != [] {
      var init, b := blocks[..|blocks| - 1], blocks[|blocks| - 1];
      assert forall x | x in init :: x in blocks;
      ExpandedReach(h, init);
      EntryOriginsReach(h, b.day, b.project, b.order, b.entries);
      assert forall o | o in Expanded(blocks) :: o in Expanded(init) || o in Expand(b);
    }
  }

  // ---------------------------------------------------------------------
  // Writing the lines of one day

  /**
   * The blocks of day `date` written so far, for the projects `done`: each
   * is a walk of its project group of that day, each project of `done`
   * comes once, and together they hold the entries of those projects.
   */
  ghost predicate DayWritten(h: Hierarchy, date: string, blocks: seq<Origin>, done: set<string>)
    requires date in h
  {
    && done <= h[date].entries.Keys
    && (forall b | b in blocks :: b.Group? && b.day == date && Reaches(h, b))
    && NoDup(ProjectsOf(blocks)) && (forall p :: p in ProjectsOf(blocks) <==> p in done)
    && multiset(EntriesOf(blocks)) == SumOver(h[date].entries, done, ProjectLeaves)
  }

  lemma DayStep(h: Hierarchy, date: string, blocks: seq<Origin>, done: set<string>, p: string, order: seq<string>, visited: seq<TimeSheet>)
    requires date in h && DayWritten(h, date, blocks, done)
    requires p in h[date].entries && p !in done
    requires VisitOf(h[date].entries[p], h[date].entries[p].entries.Keys, order, visited)
    ensures DayWritten(h, date, blocks + [Group(date, p, order, visited)], done + {p})
  {
    var b := Group(date, p, order, visited);
    assert Reaches(h, b);
    ProjectsOfSnoc(blocks, b);
    AppendFresh(ProjectsOf(blocks), done, p);
    EntriesOfSnoc(blocks, b);
    assert multiset(visited) == ProjectLeaves(h[date].entries[p]);
    SumOverVisit(h[date].entries, done, ProjectLeaves, p);
    assert forall o | o in blocks + [b] :: o in blocks || o == b;
  }

  /** The lines of day `date` written so far, for the projects `done`, and the blocks they come from. */
  ghost predicate DayLines(h: Hierarchy, date: string, am: map<string, Activity>, extended: bool,
                           blocks: seq<Origin>, done: set<string>, lines: seq<string>)
    requires date in h
  {
    DayWritten(h, date, blocks, done) && lines == Lines(h, am, Trace(extended, blocks))
  }

  /**
   * The loop over one day's projects, in map order: the lines of each
   * project-day, one per entry (extended) or one per project (condensed),
   * all under the day's formatted `Date`.
   */
  method WriteDay(entries: Hierarchy, date: string, activityMap: map<string, Activity>, extended: bool)
    returns (lines: seq<string>, ghost blocks: seq<Origin>)
    requires date in entries
    ensures DayWritten(entries, date, blocks, entries[date].entries.Keys)
    ensures lines == Lines(entries, activityMap, Trace(extended, blocks))
  {
    var formattedDate := GermanDate(entries[date].date);
    var entriesContainer := entries[date];
    lines, blocks := [], [];
    var keys := entriesContainer.entries.Keys;
    ghost var done: set<string> := {};
    while keys != {}
      invariant done !! keys && done + keys == entriesContainer.entries.Keys
      invariant DayLines(entries, date, activityMap, extended, blocks, done, lines)
      decreases keys
    {
      var p :| p in keys;
      blocks, lines := WriteProject(entries, date, formattedDate, activityMap, extended, p, done, blocks, lines);
      MoveKey(done, keys, p);
      keys := keys - {p};
      done := done + {p};
    }
  }

  /**
   * The body of the project loop: the lines of project `p` on day `date`
   * are appended to those already written, and its walk to the blocks.
   */
  method WriteProject(entries: Hierarchy, date: string, formattedDate: string, activityMap: map<string, Activity>, extended: bool,
                      p: string, ghost done: set<string>, ghost blocks: seq<Origin>, lines: seq<string>)
    returns (ghost blocks': seq<Origin>, lines': seq<string>)
    requires date in entries && formattedDate == GermanDate(entries[date].date)
    requires p in entries[date].entries && p !in done
    requires DayLines(entries, date, activityMap, extended, blocks, done, lines)
    ensures DayLines(entries, date, activityMap, extended, blocks', done + {p}, lines')
    ensures |blocks'| == |blocks| + 1 && blocks'[..|blocks|] == blocks
    ensures blocks'[|blocks|].day == date && blocks'[|blocks|].project == p
    ensures lines' == lines + Lines(entries, activityMap, Trace(extended, blocks'[|blocks|..]))
  {
    var projectEntriesContainer := entries[date].entries[p];
    ghost var order, visited;
    var rows;
    if extended {
      rows, order, visited := DetailedProject(formattedDate, projectEntriesContainer, activityMap);
      EntryOriginsLines(entries, activityMap, date, p, visited);
    } else {
      var line;
      line, order, visited := CondensedLine(formattedDate, projectEntriesContainer);
      rows := [line];
    }
    ghost var b := Group(date, p, order, visited);
    BlockLines(entries, activityMap, extended, b);
    BlockStep(entries, date, activityMap, extended, blocks, done, lines, p, order, visited, rows);
    blocks' := blocks + [b];
    lines' := lines + rows;
    assert blocks'[..|blocks|] == blocks && blocks'[|blocks|..] == [b];
  }

  /** The lines of one block: its entries' lines (extended), or its own line (condensed). */
  lemma BlockLines(h: Hierarchy, am: map<string, Activity>, extended: bool, b: Origin)
    ensures Lines(h, am, Trace(extended, [b]))
      == if extended then Lines(h, am, EntryOrigins(b.day, b.project, EntryList(b))) else [LineOf(h, am, b)]
  {
    assert [b][..0] == [];
    assert FlatMap(Expand, [b]) == FlatMap(Expand, []) + Expand(b);
    assert Expanded([b]) == Expand(b);
    assert Lines(h, am, [b]) == [LineIn(h, am)(b)];
  }

  /** Appending a walk of project `p` and its lines keeps the day's invariant. */
  lemma BlockStep(h: Hierarchy, date: string, am: map<string, Activity>, extended: bool,
                  blocks: seq<Origin>, done: set<string>, lines: seq<string>,
                  p: string, order: seq<string>, visited: seq<TimeSheet>, rows: seq<string>)
    requires date in h && DayLines(h, date, am, extended, blocks, done, lines)
    requires p in h[date].entries && p !in done
    requires VisitOf(h[date].entries[p], h[date].entries[p].entries.Keys, order, visited)
    requires rows == Lines(h, am, Trace(extended, [Group(date, p, order, visited)]))
    ensures DayLines(h, date, am, extended, blocks + [Group(date, p, order, visited)], done + {p}, lines + rows)
  {
    var b := Group(date, p, order, visited);
    DayStep(h, date, blocks, done, p, order, visited);
    TraceAppend(extended, blocks, [b]);
    OriginsAppend(h, am, Trace(extended, blocks), Trace(extended, [b]));
  }

  // ---------------------------------------------------------------------
  // Writing the file

  /**
   * The blocks written for the days `done`: each is a walk of its project
   * group, each (day, project) group of those days comes once, and together
   * they hold the entries of those days.
   */
  ghost predicate CsvWritten(h: Hierarchy, blocks: seq<Origin>, done: set<string>)
  {
    && done <= h.Keys
    && (forall b | b in blocks :: b.Group? && b.day in done && Reaches(h, b))
    && NoDup(PairsOf(blocks))
    && (forall x: (string, string) :: x in PairsOf(blocks) <==> x.0 in done && x.1 in h[x.0].entries)
    && multiset(EntriesOf(blocks)) == SumOver(h, done, DateLeaves)
  }

  /** The days of the lines are those of `dates[..n]`, and the lines follow the order of `dates`. */
  ghost predicate InDateOrder(os: seq<Origin>, dates: seq<string>, n: nat)
  {
    && (forall o | o in os :: o.day in dates && FirstIndex(dates, o.day) < n)
    && (forall i, j | 0 <= i < j < |os| :: os[i].day in dates && os[j].day in dates
          && FirstIndex(dates, os[i].day) <= FirstIndex(dates, os[j].day))
  }

  lemma OrderStep(os: seq<Origin>, more: seq<Origin>, dates: seq<string>, n: nat)
    requires n < |dates| && NoDup(dates) && InDateOrder(os, dates, n)
    requires forall o | o in more :: o.day == dates[n]
    ensures InDateOrder(os + more, dates, n + 1)
  {
    var os' := os + more;
    assert FirstIndex(dates, dates[n]) == n;
    forall i, j | 0 <= i < j < |os'|
      ensures os'[i].day in dates && os'[j].day in dates && FirstIndex(dates, os'[i].day) <= FirstIndex(dates, os'[j].day)
    {
      if j >= |os| {
        assert os'[j] in more;
        if i < |os| {
          assert os'[i] in os;
        } else {
          assert os'[i] in more;
        }
      } else {
        assert os'[i] == os[i] && os'[j] == os[j];
      }
    }
    forall o | o in os' ensures o.day in dates && FirstIndex(dates, o.day) < n + 1 {
      if o !in os {
        assert o in more;
      }
    }
  }

  lemma FileStep(h: Hierarchy, blocks: seq<Origin>, done: set<string>, date: string, more: seq<Origin>)
    requires CsvWritten(h, blocks, done)
    requires date in h && date !in done
    requires DayWritten(h, date, more, h[date].entries.Keys)
    ensures CsvWritten(h, blocks + more, done + {date})
  {
    OriginsAppend(h, map[], blocks, more);
    FileStepEntries(h, blocks, done, date, more);
    FileStepPairs(h, blocks, done, date, more);
  }

  lemma FileStepEntries(h: Hierarchy, blocks: seq<Origin>, done: set<string>, date: string, more: seq<Origin>)
    requires CsvWritten(h, blocks, done)
    requires date in h && date !in done
    requires DayWritten(h, date, more, h[date].entries.Keys)
    requires EntriesOf(blocks + more) == EntriesOf(blocks) + EntriesOf(more)
    ensures forall b | b in blocks + more :: b.Group? && b.day in done + {date} && Reaches(h, b)
    ensures multiset(EntriesOf(blocks + more)) == SumOver(h, done + {date}, DateLeaves)
  {
    assert forall o | o in blocks + more :: o in blocks || o in more;
    SumOverVisit(h, done, DateLeaves, date);
  }

  lemma FileStepPairs(h: Hierarchy, blocks: seq<Origin>, done: set<string>, date: string, more: seq<Origin>)
    requires CsvWritten(h, blocks, done)
    requires date in h && date !in done
    requires DayWritten(h, date, more, h[date].entries.Keys)
    requires PairsOf(blocks + more) == PairsOf(blocks) + PairsOf(more)
    ensures NoDup(PairsOf(blocks + more))
    ensures forall x: (string, string) :: x in PairsOf(blocks + more) <==> x.0 in done + {date} && x.1 in h[x.0].entries
  {
    DayPairs(h, date, more);
    forall x: (string, string) | x in PairsOf(blocks) ensures x !in PairsOf(more) {
    }
    NoDupConcat(PairsOf(blocks), PairsOf(more));
  }

  /** The blocks of one day name each of its projects once. */
  lemma DayPairs(h: Hierarchy, date: string, more: seq<Origin>)
    requires date in h && DayWritten(h, date, more, h[date].entries.Keys)
    ensures NoDup(PairsOf(more))
    ensures forall x: (string, string) :: x in PairsOf(more) <==> x.0 == date && x.1 in h[date].entries
  {
    forall j | 0 <= j < |more| ensures PairsOf(more)[j] == (date, ProjectsOf(more)[j]) {
      MapSeqAt(PairOf, more, j);
      MapSeqAt(ProjectOf, more, j);
      assert more[j] in more;
    }
    forall x: (string, string) ensures x in PairsOf(more) <==> x.0 == date && x.1 in h[date].entries {
      if x in PairsOf(more) {
        var j :| 0 <= j < |more| && PairsOf(more)[j] == x;
      }
      if x.0 == date && x.1 in h[date].entries {
        var j :| 0 <= j < |more| && ProjectsOf(more)[j] == x.1;
      }
    }
  }

  /** Two duplicate-free sequences with nothing in common concatenate to a duplicate-free one. */
  lemma NoDupConcat<T>(a: seq<T>, b: seq<T>)
    requires NoDup(a) && NoDup(b) && forall x :: x in a ==> x !in b
    ensures NoDup(a + b)
  {
    var c := a + b;
    forall i, j | 0 <= i < j < |c| ensures c[i] != c[j] {
      if i < |a| && j >= |a| {
        assert c[i] in a && c[j] == b[j - |a|];
      }
    }
  }

  /** The header line of the mode. */
  function Header(extended: bool): string
  {
    if extended then ExtendedHeader else CondensedHeader
  }

  /** The file as written once the first `n` days of `dates` (the set `done`) are through. */
  ghost predicate WrittenUpTo(entries: Hierarchy, dates: seq<string>, activityMap: map<string, Activity>, extended: bool,
                              n: nat, done: set<string>, blocks: seq<Origin>, lines: seq<string>)
  {
    && n <= |dates|
    && (forall d :: d in done <==> d in dates[..n])
    && CsvWritten(entries, blocks, done)
    && InDateOrder(blocks, dates, n)
    && InDateOrder(Trace(extended, blocks), dates, n)
    && lines == [Header(extended)] + Lines(entries, activityMap, Trace(extended, blocks))
  }

  lemma DateStep(entries: Hierarchy, dates: seq<string>, activityMap: map<string, Activity>, extended: bool,
                 n: nat, done: set<string>, blocks: seq<Origin>, lines: seq<string>, more: seq<string>, dayBlocks: seq<Origin>)
    requires NoDup(dates) && (forall d :: d in dates <==> d in entries) && n < |dates|
    requires WrittenUpTo(entries, dates, activityMap, extended, n, done, blocks, lines)
    requires DayWritten(entries, dates[n], dayBlocks, entries[dates[n]].entries.Keys)
    requires more == Lines(entries, activityMap, Trace(extended, dayBlocks))
    ensures WrittenUpTo(entries, dates, activityMap, extended, n + 1, done + {dates[n]}, blocks + dayBlocks, lines + more)
  {
    PrefixStep(dates, n, done);
    FileStep(entries, blocks, done, dates[n], dayBlocks);
    OrderStep(blocks, dayBlocks, dates, n);
    if extended {
      ExpandedDays(dayBlocks, dates[n]);
    }
    TraceAppend(extended, blocks, dayBlocks);
    OrderStep(Trace(extended, blocks), Trace(extended, dayBlocks), dates, n);
    LinesStep(entries, activityMap, extended, Trace(extended, blocks), lines, Trace(extended, dayBlocks), more);
  }

  lemma LinesStep(entries: Hierarchy, activityMap: map<string, Activity>, extended: bool,
                  os: seq<Origin>, lines: seq<string>, dayOrigins: seq<Origin>, more: seq<string>)
    requires lines == [Header(extended)] + Lines(entries, activityMap, os)
    requires more == Lines(entries, activityMap, dayOrigins)
    ensures lines + more == [Header(extended)] + Lines(entries, activityMap, os + dayOrigins)
  {
    OriginsAppend(entries, activityMap, os, dayOrigins);
    assert lines + more == [Header(extended)] + (Lines(entries, activityMap, os) + more);
  }

  /**
   * The body of the day loop: the lines of day `dates[n]` are appended to
   * those already written, and its blocks to the blocks.
   */
  method WriteDate(entries: Hierarchy, dates: seq<string>, activityMap: map<string, Activity>, extended: bool,
                   n: nat, ghost done: set<string>, ghost blocks: seq<Origin>, lines: seq<string>)
    returns (ghost done': set<string>, ghost blocks': seq<Origin>, lines': seq<string>)
    requires NoDup(dates) && (forall d :: d in dates <==> d in entries) && n < |dates|
    requires WrittenUpTo(entries, dates, activityMap, extended, n, done, blocks, lines)
    ensures WrittenUpTo(entries, dates, activityMap, extended, n + 1, done', blocks', lines')
    ensures done' == done + {dates[n]}
    ensures |blocks| <= |blocks'| && blocks'[..|blocks|] == blocks
    ensures DayWritten(entries, dates[n], blocks'[|blocks|..], entries[dates[n]].entries.Keys)
    ensures lines' == lines + Lines(entries, activityMap, Trace(extended, blocks'[|blocks|..]))
  {
    var date := dates[n];
    var more;
    ghost var dayBlocks;
    more, dayBlocks := WriteDay(entries, date, activityMap, extended);
    DateStep(entries, dates, activityMap, extended, n, done, blocks, lines, more, dayBlocks);
    lines' := lines + more;
    blocks' := blocks + dayBlocks;
    done' := done + {date};
    assert blocks'[..|blocks|] == blocks && blocks'[|blocks|..] == dayBlocks;
  }

  /**
   * The CSV writer: the header of the mode, then the lines of every day in
   * the order of `dates`, written project-day block by block. In the
   * extended mode there is one line per entry of each block, in the
   * condensed mode one line per block; every (day, project) group of the
   * hierarchy is one block, a walk of its activities.
   */
  method WriteCsv(entries: Hierarchy, dates: seq<string>, activityMap: map<string, Activity>, extended: bool)
    returns (lines: seq<string>, ghost blocks: seq<Origin>)
    requires NoDup(dates) && forall d :: d in dates <==> d in entries
    ensures lines == [Header(extended)] + Lines(entries, activityMap, Trace(extended, blocks))
    ensures CsvWritten(entries, blocks, entries.Keys)
    ensures InDateOrder(blocks, dates, |dates|)
    ensures InDateOrder(Trace(extended, blocks), dates, |dates|)
  {
    lines := [Header(extended)];
    blocks := [];
    ghost var done: set<string> := {};
    var i := 0;
    NothingWritten(entries, dates, activityMap, extended);
    while i < |dates|
      invariant i <= |dates|
      invariant WrittenUpTo(entries, dates, activityMap, extended, i, done, blocks, lines)
    {
      done, blocks, lines := WriteDate(entries, dates, activityMap, extended, i, done, blocks, lines);
      i := i + 1;
    }
    AllDatesWritten(entries, dates, activityMap, extended, done, blocks, lines);
  }

  /** Before the first date, the file is the header alone. */
  lemma NothingWritten(entries: Hierarchy, dates: seq<string>, activityMap: map<string, Activity>, extended: bool)
    ensures WrittenUpTo(entries, dates, activityMap, extended, 0, {}, [], [Header(extended)])
  {
    assert Trace(extended, []) == [];
  }

  /** Once every date is through, the blocks cover every day of the hierarchy. */
  lemma AllDatesWritten(entries: Hierarchy, dates: seq<string>, activityMap: map<string, Activity>, extended: bool,
                        done: set<string>, blocks: seq<Origin>, lines: seq<string>)
    requires forall d :: d in dates <==> d in entries
    requires WrittenUpTo(entries, dates, activityMap, extended, |dates|, done, blocks, lines)
    ensures CsvWritten(entries, blocks, entries.Keys)
  {
    assert dates[..|dates|] == dates;
    assert done == entries.Keys;
  }
}
