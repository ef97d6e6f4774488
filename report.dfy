/**
 * The report of timesheet.go's `main` as a whole: the lookup maps, the
 * grouping, the totals and the CSV lines, with what they come to stated on
 * the fetched lists alone.
 */
module Report {
  import opened Kimai
  import opened Text
  import opened Layout
  import opened Distinct
  import opened KeySort
  import opened Bags
  import opened Grouping
  import opened Totals
  import opened Condense
  import opened Csv

  // ---------------------------------------------------------------------
  // Names, as the lookup maps resolve them

  /** The name of the last listed project whose id prints as `k`, or "" when none does. */
  function ProjectName(projects: seq<Project>, k: string): string
  {
    if projects == [] then ""
    else
      var last := projects[|projects| - 1];
      if Itoa(last.id) == k then last.name else ProjectName(projects[..|projects| - 1], k)
  }

  /** The name of the last listed activity whose id prints as `k`, or "" when none does. */
  function ActivityNameIn(activities: seq<Activity>, k: string): string
  {
    if activities == [] then ""
    else
      var last := activities[|activities| - 1];
      if Itoa(last.id) == k then last.name else ActivityNameIn(activities[..|activities| - 1], k)
  }

  /** What `Index` stores for a list keyed by `Itoa(id)`. */
  ghost predicate Indexes<T>(items: seq<T>, id: T -> int, m: map<string, T>)
  {
    && (forall k :: k in m <==> exists x :: x in items && Itoa(id(x)) == k)
    && (forall k :: k in m ==> m[k] == Latest(items, id, k))
  }

  lemma {:induction false} ProjectNameLatest(projects: seq<Project>, k: string)
    ensures (exists x :: x in projects && Itoa(ProjectIdOf(x)) == k) ==> ProjectName(projects, k) == Latest(projects, ProjectIdOf, k).name
    ensures (forall x :: x in projects ==> Itoa(ProjectIdOf(x)) != k) ==> ProjectName(projects, k) == ""
  {
    if projects != [] {
      var init, last := projects[..|projects| - 1], projects[|projects| - 1];
      assert projects == init + [last];
      ProjectNameLatest(init, k);
    }
  }

  lemma {:induction false} ActivityNameLatest(activities: seq<Activity>, k: string)
    ensures (exists x :: x in activities && Itoa(ActivityIdOf(x)) == k) ==> ActivityNameIn(activities, k) == Latest(activities, ActivityIdOf, k).name
    ensures (forall x :: x in activities ==> Itoa(ActivityIdOf(x)) != k) ==> ActivityNameIn(activities, k) == ""
  {
    if activities != [] {
      var init, last := activities[..|activities| - 1], activities[|activities| - 1];
      assert activities == init + [last];
      ActivityNameLatest(init, k);
    }
  }

  /**
   * Looking a project key up in the map gives the name of the last listed
   * project with that id, and the empty name of the zero project when no
   * listed project has it.
   */
  lemma ProjectLookup(projects: seq<Project>, pm: map<string, Project>, k: string)
    requires Indexes(projects, ProjectIdOf, pm)
    ensures Lookup(pm, k, ZeroProject).name == ProjectName(projects, k)
  {
    ProjectNameLatest(projects, k);
  }

  /** The same for activities. */
  lemma ActivityLookup(activities: seq<Activity>, am: map<string, Activity>, k: string)
    requires Indexes(activities, ActivityIdOf, am)
    ensures Lookup(am, k, ZeroActivity).name == ActivityNameIn(activities, k)
  {
    ActivityNameLatest(activities, k);
  }

  // ---------------------------------------------------------------------
  // The entries of a group, on the input list

  lemma {:induction false} OnProjectDayMember(ts: seq<TimeSheet>, d: string, p: string, t: TimeSheet)
    requires t in OnProjectDay(ts, d, p)
    ensures t in ts && DateKeyOf(t) == d && ProjectKeyOf(t) == p
  {
    var init := ts[..|ts| - 1];
    assert ts == init + [ts[|ts| - 1]];
    if t in OnProjectDay(init, d, p) {
      OnProjectDayMember(init, d, p, t);
    }
  }

  lemma {:induction false} OnDayMember(ts: seq<TimeSheet>, d: string, t: TimeSheet)
    requires t in OnDay(ts, d)
    ensures t in ts && DateKeyOf(t) == d
  {
    var init := ts[..|ts| - 1];
    assert ts == init + [ts[|ts| - 1]];
    if t in OnDay(init, d) {
      OnDayMember(init, d, t);
    }
  }

  /** A project group of the hierarchy reaches exactly that project's entries on that day. */
  lemma {:induction false} GroupOfProjectLeaves(ts: seq<TimeSheet>, pm: map<string, Project>, am: map<string, Activity>, d: string, p: string)
    requires d in GroupOf(ts, pm, am) && p in GroupOf(ts, pm, am)[d].entries
    ensures ProjectLeaves(GroupOf(ts, pm, am)[d].entries[p]) == multiset(OnProjectDay(ts, d, p))
  {
    var init, t := ts[..|ts| - 1], ts[|ts| - 1];
    var h := GroupOf(init, pm, am);
    assert GroupOf(ts, pm, am) == Placed(h, t, pm, am);
    OnProjectDayAppend(init, t, d, p);
    assert init + [t] == ts;
    if DateKeyOf(t) == d && ProjectKeyOf(t) == p {
      PlacedProjectLeaves(h, t, pm, am);
      if d in h && p in h[d].entries {
        GroupOfProjectLeaves(init, pm, am, d, p);
      } else {
        FreshProject(init, pm, am, d, p);
      }
    } else {
      PlacedOtherProject(h, t, pm, am, d, p);
      GroupOfProjectLeaves(init, pm, am, d, p);
    }
  }

  /** Filing `t` adds it to what its own project group reaches. */
  lemma PlacedProjectLeaves(h: Hierarchy, t: TimeSheet, pm: map<string, Project>, am: map<string, Activity>)
    ensures
      var d, p := DateKeyOf(t), ProjectKeyOf(t);
      d in Placed(h, t, pm, am) && p in Placed(h, t, pm, am)[d].entries
      && ProjectLeaves(Placed(h, t, pm, am)[d].entries[p])
         == (if d in h && p in h[d].entries then ProjectLeaves(h[d].entries[p]) else multiset{}) + multiset{t}
  {
    PlacedParts(h, t, pm, am);
    var pg := ProjectSlot(DateSlot(h, t), t, pm);
    var ag := ActivitySlot(pg, t, am);
    SumOverUpdate(pg.entries, ActivityKeyOf(t), ag.(entries := ag.entries + [t]), ActivityLeaves, multiset{t});
  }

  /** Filing `t` leaves every other project group as it was. */
  lemma PlacedOtherProject(h: Hierarchy, t: TimeSheet, pm: map<string, Project>, am: map<string, Activity>, d: string, p: string)
    requires d != DateKeyOf(t) || p != ProjectKeyOf(t)
    requires d in Placed(h, t, pm, am) && p in Placed(h, t, pm, am)[d].entries
    ensures d in h && p in h[d].entries && Placed(h, t, pm, am)[d].entries[p] == h[d].entries[p]
  {
    PlacedParts(h, t, pm, am);
  }

  /** A project not yet filed under a day has no entries that day so far. */
  lemma FreshProject(ts: seq<TimeSheet>, pm: map<string, Project>, am: map<string, Activity>, d: string, p: string)
    requires d !in GroupOf(ts, pm, am) || p !in GroupOf(ts, pm, am)[d].entries
    ensures OnProjectDay(ts, d, p) == []
  {
    var h := GroupOf(ts, pm, am);
    GroupOfGrouped(ts, pm, am);
    if d in h {
      assert DateGroupOk(ts, pm, am, d, h[d]);
    } else {
      NoDayNoProject(ts, d, p);
    }
  }

  /** Every entry a project group reaches is an input entry of that day and project. */
  lemma EntryLocated(ts: seq<TimeSheet>, pm: map<string, Project>, am: map<string, Activity>, d: string, p: string, t: TimeSheet)
    requires d in GroupOf(ts, pm, am) && p in GroupOf(ts, pm, am)[d].entries
    requires t in ProjectLeaves(GroupOf(ts, pm, am)[d].entries[p])
    ensures t in ts && DateKeyOf(t) == d && ProjectKeyOf(t) == p
  {
    GroupOfProjectLeaves(ts, pm, am, d, p);
    OnProjectDayMember(ts, d, p, t);
  }

  // ---------------------------------------------------------------------
  // The lines, on the input list

  /** The begin of the first input entry on `t`'s day (`t`'s own begin when there is none). */
  function DayStart(ts: seq<TimeSheet>, t: TimeSheet): KimaiTime
  {
    var day := OnDay(ts, DateKeyOf(t));
    if day == [] then t.begin else day[0].begin
  }

  /** Every input entry is among the entries of its own day. */
  lemma {:induction false} OnDayHas(ts: seq<TimeSheet>, t: TimeSheet)
    requires t in ts
    ensures t in OnDay(ts, DateKeyOf(t))
  {
    var init := ts[..|ts| - 1];
    assert ts == init + [ts[|ts| - 1]];
    if t != ts[|ts| - 1] {
      OnDayHas(init, t);
    }
  }

  /**
   * The date column of an entry's line shows the entry's own calendar day:
   * the first entry of the day shares its date key, hence (for years the
   * layout prints in four digits) its year, month and day.
   */
  lemma DayStartDate(ts: seq<TimeSheet>, t: TimeSheet)
    requires t in ts && forall u | u in ts :: FourDigitYear(u.begin)
    ensures GermanDate(DayStart(ts, t)) == GermanDate(t.begin)
  {
    OnDayHas(ts, t);
    var first := OnDay(ts, DateKeyOf(t))[0];
    OnDayMember(ts, DateKeyOf(t), first);
    DateKeyOrder(first.begin, t.begin);
  }

  /**
   * The extended line of an input entry: the date of the first entry of its
   * day, its times and hours, the names its project and activity ids
   * resolve to, its description and its amount.
   */
  function EntryRow(projects: seq<Project>, activities: seq<Activity>, ts: seq<TimeSheet>, t: TimeSheet): string
  {
    DetailRow(GermanDate(DayStart(ts, t)), ProjectName(projects, ProjectKeyOf(t)), ActivityNameIn(activities, ActivityKeyOf(t)), t)
  }

  function EntryRowIn(projects: seq<Project>, activities: seq<Activity>, ts: seq<TimeSheet>): TimeSheet -> string
  {
    t => EntryRow(projects, activities, ts, t)
  }

  /**
   * The condensed line of the input's (day, project) pair named by `o`: the
   * date of the first entry of the day, the sums over that project's
   * entries that day, the project's name, and the pieces of the
   * descriptions of `o`'s entries (which the visit order arranges).
   */
  function PairRow(projects: seq<Project>, ts: seq<TimeSheet>, o: Origin): string
  {
    var day := OnDay(ts, o.day);
    if day == [] then ""
    else
      CondensedRow(GermanDate(day[0].begin), ProjectName(projects, o.project),
                   SeqTotal(OnProjectDay(ts, o.day, o.project)), Dedup([], Fragments(EntryList(o))))
  }

  function PairRowIn(projects: seq<Project>, ts: seq<TimeSheet>): Origin -> string
  {
    o => PairRow(projects, ts, o)
  }

  /** An extended line of the hierarchy is the input entry's own line. */
  lemma EntryLine(ts: seq<TimeSheet>, projects: seq<Project>, activities: seq<Activity>,
                  pm: map<string, Project>, am: map<string, Activity>, o: Origin)
    requires Indexes(projects, ProjectIdOf, pm) && Indexes(activities, ActivityIdOf, am)
    requires o.Entry? && Reaches(GroupOf(ts, pm, am), o)
    ensures o.entry in ts && DateKeyOf(o.entry) == o.day
    ensures LineOf(GroupOf(ts, pm, am), am, o) == EntryRow(projects, activities, ts, o.entry)
  {
    var h := GroupOf(ts, pm, am);
    var d, p, t := o.day, o.project, o.entry;
    EntryLocated(ts, pm, am, d, p, t);
    GroupOfGrouped(ts, pm, am);
    assert DateGroupOk(ts, pm, am, d, h[d]);
    assert ProjectGroupOk(ts, pm, am, d, p, h[d].entries[p]);
    ProjectLookup(projects, pm, p);
    ActivityLookup(activities, am, ActivityKeyOf(t));
  }

  /** A condensed line of the hierarchy is its pair's line; its entries are the pair's, in some order. */
  lemma GroupLine(ts: seq<TimeSheet>, projects: seq<Project>, pm: map<string, Project>, am: map<string, Activity>, o: Origin)
    requires Indexes(projects, ProjectIdOf, pm)
    requires o.Group? && Reaches(GroupOf(ts, pm, am), o)
    ensures multiset(o.entries) == multiset(OnProjectDay(ts, o.day, o.project))
    ensures LineOf(GroupOf(ts, pm, am), am, o) == PairRow(projects, ts, o)
  {
    var h := GroupOf(ts, pm, am);
    var d, p := o.day, o.project;
    GroupOfProjectLeaves(ts, pm, am, d, p);
    SeqTotalPermutation(o.entries, OnProjectDay(ts, d, p));
    GroupOfGrouped(ts, pm, am);
    assert DateGroupOk(ts, pm, am, d, h[d]);
    assert ProjectGroupOk(ts, pm, am, d, p, h[d].entries[p]);
    ProjectLookup(projects, pm, p);
  }

  /** The buckets of the given activities of project `p` on day `d`, one after the other. */
  function Buckets(ts: seq<TimeSheet>, d: string, p: string, order: seq<string>): seq<TimeSheet>
  {
    if order == [] then [] else Buckets(ts, d, p, order[..|order| - 1]) + Bucket(ts, d, p, order[|order| - 1])
  }

  /**
   * `es` is how the program walks the (d, p) pair: every activity of the pair
   * once, in `order`, and each activity's entries in input order.
   */
  ghost predicate BucketWalk(ts: seq<TimeSheet>, d: string, p: string, order: seq<string>, es: seq<TimeSheet>)
  {
    && NoDup(order)
    && (forall a :: a in order <==> Bucket(ts, d, p, a) != [])
    && es == Buckets(ts, d, p, order)
  }

  /** Walking a project container's activities in `order` gives those activities' buckets in that order. */
  lemma {:induction false} FlattenBuckets(ts: seq<TimeSheet>, d: string, p: string, g: ProjectEntries, order: seq<string>)
    requires forall a | a in order :: a in g.entries && g.entries[a].entries == Bucket(ts, d, p, a)
    ensures Flatten(g.entries, order) == Buckets(ts, d, p, order)
  {
    if order != [] {
      var init := order[..|order| - 1];
      assert forall a | a in init :: a in order;
      FlattenBuckets(ts, d, p, g, init);
    }
  }

  /** The entries behind a condensed line are its pair's buckets, walked activity by activity. */
  lemma GroupWalk(ts: seq<TimeSheet>, pm: map<string, Project>, am: map<string, Activity>, o: Origin)
    requires o.Group? && Reaches(GroupOf(ts, pm, am), o)
    ensures BucketWalk(ts, o.day, o.project, o.order, o.entries)
  {
    var h := GroupOf(ts, pm, am);
    var d, p := o.day, o.project;
    GroupOfGrouped(ts, pm, am);
    assert DateGroupOk(ts, pm, am, d, h[d]);
    var g := h[d].entries[p];
    assert ProjectGroupOk(ts, pm, am, d, p, g);
    forall a | a in o.order ensures a in g.entries && g.entries[a].entries == Bucket(ts, d, p, a) {
      assert ActivityGroupOk(ts, am, d, p, a, g.entries[a]);
    }
    FlattenBuckets(ts, d, p, g, o.order);
  }

  // ---------------------------------------------------------------------
  // From origins to the input

  /** The entries behind extended lines are the lines' own entries, one each. */
  lemma {:induction false} EntriesOfEntries(os: seq<Origin>)
    requires forall o | o in os :: o.Entry?
    ensures |EntriesOf(os)| == |os|
    ensures forall i | 0 <= i < |os| :: EntriesOf(os)[i] == os[i].entry
  {
    if os != [] {
      var init := os[..|os| - 1];
      assert forall o | o in init :: o in os;
      EntriesOfEntries(init);
    }
  }

  /** Lines appear day by day: a line's day equals or precedes the day of any later line. */
  ghost predicate DayOrdered(days: seq<string>)
  {
    forall i, j | 0 <= i < j < |days| :: days[i] == days[j] || Less(days[i], days[j])
  }

  function DayOf(o: Origin): string { o.day }

  /** Following the ascending date keys puts the lines in day order. */
  lemma AscendingDays(os: seq<Origin>, dates: seq<string>)
    requires StrictlyAscending(dates) && InDateOrder(os, dates, |dates|)
    ensures DayOrdered(MapSeq(DayOf, os))
  {
    var days := MapSeq(DayOf, os);
    forall i, j | 0 <= i < j < |days| ensures days[i] == days[j] || Less(days[i], days[j]) {
      MapSeqAt(DayOf, os, i);
      MapSeqAt(DayOf, os, j);
      var a, b := FirstIndex(dates, os[i].day), FirstIndex(dates, os[j].day);
      if a != b {
        assert a < b;
      }
    }
  }

  /** A duplicate-free sequence has as many elements as the set of them. */
  lemma {:induction false} NoDupCard<T>(s: seq<T>)
    requires NoDup(s)
    ensures |set x | x in s| == |s|
  {
    if s != [] {
      var init, last := s[..|s| - 1], s[|s| - 1];
      assert s == init + [last];
      assert NoDup(init);
      NoDupCard(init);
      assert last !in init;
      assert (set x | x in s) == (set x | x in init) + {last};
    }
  }

  /** The groups of the hierarchy are the (day, project) pairs of the input. */
  lemma GroupPairs(ts: seq<TimeSheet>, pm: map<string, Project>, am: map<string, Activity>, x: (string, string))
    ensures (x.0 in GroupOf(ts, pm, am) && x.1 in GroupOf(ts, pm, am)[x.0].entries) <==> x in Pairs(ts)
  {
    var h := GroupOf(ts, pm, am);
    GroupOfGrouped(ts, pm, am);
    PairsOnProjectDay(ts, x.0, x.1);
    if x.0 in h {
      assert DateGroupOk(ts, pm, am, x.0, h[x.0]);
    } else if x in Pairs(ts) {
      NoDayNoProject(ts, x.0, x.1);
    }
  }

  // ---------------------------------------------------------------------
  // The file, on the input list

  /**
   * The project-day blocks the file is written in: one per (day, project)
   * pair of the input, each pair once, each the pair's activity buckets
   * joined in a walk that takes each of its activities once, day by day in
   * ascending order.
   */
  ghost predicate PairWalks(ts: seq<TimeSheet>, blocks: seq<Origin>)
  {
    && (forall b | b in blocks :: b.Group? && BucketWalk(ts, b.day, b.project, b.order, b.entries))
    && NoDup(PairsOf(blocks))
    && (forall x: (string, string) :: x in PairsOf(blocks) <==> x in Pairs(ts))
    && |blocks| == |Pairs(ts)|
    && DayOrdered(MapSeq(DayOf, blocks))
  }

  /**
   * The extended file: the header, then one line per input entry (each
   * entry exactly as often as it was fetched), each the entry's own line,
   * block after block: within a block the pair's activities one after the
   * other, each activity's entries in input order.
   */
  ghost predicate ExtendedFile(ts: seq<TimeSheet>, projects: seq<Project>, activities: seq<Activity>,
                               lines: seq<string>, blocks: seq<Origin>)
  {
    && PairWalks(ts, blocks)
    && multiset(EntriesOf(blocks)) == multiset(ts)
    && lines == [ExtendedHeader] + MapSeq(EntryRowIn(projects, activities, ts), EntriesOf(blocks))
    && DayOrdered(MapSeq(DateKeyOf, EntriesOf(blocks)))
  }

  /**
   * The condensed file: the header, then one line per block, each the
   * pair's line over the block's entries, which are the pair's entries.
   */
  ghost predicate CondensedFile(ts: seq<TimeSheet>, projects: seq<Project>, lines: seq<string>, blocks: seq<Origin>)
  {
    && PairWalks(ts, blocks)
    && (forall b | b in blocks :: b.Group? && multiset(b.entries) == multiset(OnProjectDay(ts, b.day, b.project)))
    && lines == [CondensedHeader] + MapSeq(PairRowIn(projects, ts), blocks)
  }

  /** The blocks the writer produces for the grouping of the input are its pair walks. */
  lemma PairWalksOf(ts: seq<TimeSheet>, pm: map<string, Project>, am: map<string, Activity>, dates: seq<string>, blocks: seq<Origin>)
    requires CsvWritten(GroupOf(ts, pm, am), blocks, GroupOf(ts, pm, am).Keys)
    requires StrictlyAscending(dates) && InDateOrder(blocks, dates, |dates|)
    ensures PairWalks(ts, blocks)
  {
    BlockWalks(ts, pm, am, blocks);
    BlockPairs(ts, pm, am, blocks);
    AscendingDays(blocks, dates);
  }

  lemma ExtendedLines(ts: seq<TimeSheet>, projects: seq<Project>, activities: seq<Activity>,
                      pm: map<string, Project>, am: map<string, Activity>, dates: seq<string>, blocks: seq<Origin>)
    requires Indexes(projects, ProjectIdOf, pm) && Indexes(activities, ActivityIdOf, am)
    requires CsvWritten(GroupOf(ts, pm, am), blocks, GroupOf(ts, pm, am).Keys)
    requires StrictlyAscending(dates) && InDateOrder(blocks, dates, |dates|) && InDateOrder(Expanded(blocks), dates, |dates|)
    ensures ExtendedFile(ts, projects, activities, [ExtendedHeader] + Lines(GroupOf(ts, pm, am), am, Expanded(blocks)), blocks)
  {
    GroupOfLeaves(ts, pm, am);
    PairWalksOf(ts, pm, am, dates, blocks);
    ExpandedReach(GroupOf(ts, pm, am), blocks);
    ExpandedEntries(blocks);
    ExtendedRows(ts, projects, activities, pm, am, Expanded(blocks));
    AscendingDays(Expanded(blocks), dates);
  }

  /** Each extended line is its entry's line, and its entry's day is the line's day. */
  lemma ExtendedRows(ts: seq<TimeSheet>, projects: seq<Project>, activities: seq<Activity>,
                     pm: map<string, Project>, am: map<string, Activity>, os: seq<Origin>)
    requires Indexes(projects, ProjectIdOf, pm) && Indexes(activities, ActivityIdOf, am)
    requires forall o | o in os :: o.Entry? && Reaches(GroupOf(ts, pm, am), o)
    ensures Lines(GroupOf(ts, pm, am), am, os) == MapSeq(EntryRowIn(projects, activities, ts), EntriesOf(os))
    ensures MapSeq(DateKeyOf, EntriesOf(os)) == MapSeq(DayOf, os)
  {
    var h := GroupOf(ts, pm, am);
    var visited := EntriesOf(os);
    EntriesOfEntries(os);
    var rows := MapSeq(EntryRowIn(projects, activities, ts), visited);
    var keys := MapSeq(DateKeyOf, visited);
    var days := MapSeq(DayOf, os);
    forall i | 0 <= i < |os| ensures Lines(h, am, os)[i] == rows[i] && keys[i] == days[i] {
      assert os[i] in os;
      EntryLine(ts, projects, activities, pm, am, os[i]);
      MapSeqAt(LineIn(h, am), os, i);
      MapSeqAt(EntryRowIn(projects, activities, ts), visited, i);
      MapSeqAt(DateKeyOf, visited, i);
      MapSeqAt(DayOf, os, i);
    }
  }

  lemma CondensedLines(ts: seq<TimeSheet>, projects: seq<Project>,
                       pm: map<string, Project>, am: map<string, Activity>, dates: seq<string>, blocks: seq<Origin>)
    requires Indexes(projects, ProjectIdOf, pm)
    requires CsvWritten(GroupOf(ts, pm, am), blocks, GroupOf(ts, pm, am).Keys)
    requires StrictlyAscending(dates) && InDateOrder(blocks, dates, |dates|)
    ensures CondensedFile(ts, projects, [CondensedHeader] + Lines(GroupOf(ts, pm, am), am, blocks), blocks)
  {
    CondensedRows(ts, projects, pm, am, blocks);
    PairWalksOf(ts, pm, am, dates, blocks);
  }

  /** Each condensed line is its pair's line, over a permutation of the pair's entries. */
  lemma CondensedRows(ts: seq<TimeSheet>, projects: seq<Project>, pm: map<string, Project>, am: map<string, Activity>, os: seq<Origin>)
    requires Indexes(projects, ProjectIdOf, pm)
    requires forall o | o in os :: o.Group? && Reaches(GroupOf(ts, pm, am), o)
    ensures Lines(GroupOf(ts, pm, am), am, os) == MapSeq(PairRowIn(projects, ts), os)
    ensures forall o | o in os :: multiset(o.entries) == multiset(OnProjectDay(ts, o.day, o.project))
  {
    var h := GroupOf(ts, pm, am);
    forall i | 0 <= i < |os| ensures Lines(h, am, os)[i] == MapSeq(PairRowIn(projects, ts), os)[i] {
      assert os[i] in os;
      GroupLine(ts, projects, pm, am, os[i]);
      MapSeqAt(LineIn(h, am), os, i);
      MapSeqAt(PairRowIn(projects, ts), os, i);
    }
    forall o | o in os ensures multiset(o.entries) == multiset(OnProjectDay(ts, o.day, o.project)) {
      GroupLine(ts, projects, pm, am, o);
    }
  }

  /** Each block's entries are its pair's buckets, walked activity by activity. */
  lemma BlockWalks(ts: seq<TimeSheet>, pm: map<string, Project>, am: map<string, Activity>, os: seq<Origin>)
    requires forall o | o in os :: o.Group? && Reaches(GroupOf(ts, pm, am), o)
    ensures forall o | o in os :: o.Group? && BucketWalk(ts, o.day, o.project, o.order, o.entries)
  {
    forall o | o in os ensures o.Group? && BucketWalk(ts, o.day, o.project, o.order, o.entries) {
      GroupWalk(ts, pm, am, o);
    }
  }

  /** The blocks name every (day, project) pair of the input, once each. */
  lemma BlockPairs(ts: seq<TimeSheet>, pm: map<string, Project>, am: map<string, Activity>, os: seq<Origin>)
    requires NoDup(PairsOf(os))
    requires forall x: (string, string) :: x in PairsOf(os) <==> x.0 in GroupOf(ts, pm, am) && x.1 in GroupOf(ts, pm, am)[x.0].entries
    ensures forall x: (string, string) :: x in PairsOf(os) <==> x in Pairs(ts)
    ensures |os| == |Pairs(ts)|
  {
    forall x: (string, string) ensures x in PairsOf(os) <==> x in Pairs(ts) {
      GroupPairs(ts, pm, am, x);
    }
    NoDupCard(PairsOf(os));
    assert (set x | x in PairsOf(os)) == Pairs(ts);
  }

  /** Strictly ascending keys are distinct. */
  lemma AscendingNoDup(s: seq<string>)
    requires StrictlyAscending(s)
    ensures NoDup(s)
  {
    forall i, j | 0 <= i < j < |s| ensures s[i] != s[j] {
      LessIrreflexive(s[i]);
    }
  }

  // ---------------------------------------------------------------------
  // The report

  /**
   * What the program does with the fetched lists: build the lookup maps,
   * group the entries, add up the totals over every entry the grouping
   * reaches, and, when a CSV file is asked for, produce its lines in the
   * chosen mode. The totals are those of the input; the file is the one
   * `ExtendedFile` or `CondensedFile` describes.
   */
  method Report(timeSheets: seq<TimeSheet>, projects: seq<Project>, activities: seq<Activity>, extended: bool, writeCsv: bool)
    returns (total: Total, lines: seq<string>, ghost blocks: seq<Origin>)
    ensures total == SeqTotal(timeSheets)
    ensures !writeCsv ==> lines == []
    ensures writeCsv && extended ==> ExtendedFile(timeSheets, projects, activities, lines, blocks)
    ensures writeCsv && !extended ==> CondensedFile(timeSheets, projects, lines, blocks)
  {
    var projectMap := Index(projects, ProjectIdOf);
    var activityMap := Index(activities, ActivityIdOf);
    var entries, dates := Grouping.Group(timeSheets, projectMap, activityMap);
    AscendingNoDup(dates);
    ghost var visited;
    total, visited := Sum(entries, dates);
    TotalsOfInput(timeSheets, entries, visited);
    if writeCsv {
      lines, blocks := WriteCsv(entries, dates, activityMap, extended);
      if extended {
        ExtendedLines(timeSheets, projects, activities, projectMap, activityMap, dates, blocks);
      } else {
        CondensedLines(timeSheets, projects, projectMap, activityMap, dates, blocks);
      }
    } else {
      lines := [];
      blocks := [];
    }
  }
}
