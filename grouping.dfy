/**
 * The grouping pass of timesheet.go: the lookup maps built from the project
 * and activity lists, and the loop that files every time sheet under
 * date key -> project id -> activity id, creating the containers on demand,
 * while it records each date key once in the order first seen; the keys are
 * then sorted.
 */
module Grouping {
  import opened Kimai
  import opened Text
  import opened Layout
  import opened Distinct
  import opened KeySort
  import opened Bags

  /** `ActivityEntriesContainer`: one activity's time sheets, in input order. */
  datatype ActivityEntries = ActivityEntries(activity: Activity, entries: seq<TimeSheet>)

  /** `ProjectEntriesContainer`: one project's activities on one day. */
  datatype ProjectEntries = ProjectEntries(project: Project, entries: map<string, ActivityEntries>)

  /** `DateEntriesContainer`: one day's projects, and the time that names the day. */
  datatype DateEntries = DateEntries(date: KimaiTime, entries: map<string, ProjectEntries>)

  type Hierarchy = map<string, DateEntries>

  function DateKeyOf(t: TimeSheet): string { DateKey(t.begin) }

  function ProjectKeyOf(t: TimeSheet): string { Itoa(t.projectId) }

  function ActivityKeyOf(t: TimeSheet): string { Itoa(t.activityId) }

  /** A Go map index: the stored value, or the type's zero value when the key is missing. */
  function Lookup<V>(m: map<string, V>, k: string, zero: V): V
  {
    if k in m then m[k] else zero
  }

  // ---------------------------------------------------------------------
  // The lookup maps (projectMap, activityMap)

  function ProjectIdOf(p: Project): int { p.id }

  function ActivityIdOf(a: Activity): int { a.id }

  /** The last of `items` whose id prints as `k`: a later item overwrites an earlier one. */
  function Latest<T>(items: seq<T>, id: T -> int, k: string): (r: T)
    requires exists x :: x in items && Itoa(id(x)) == k
    ensures r in items && Itoa(id(r)) == k
  {
    var last := items[|items| - 1];
    if Itoa(id(last)) == k then last
    else
      assert items == items[..|items| - 1] + [last];
      Latest(items[..|items| - 1], id, k)
  }

  /** `Latest` picks the item at the last position whose id prints as `k`: no later item has that id. */
  lemma {:induction false} LatestIsLast<T>(items: seq<T>, id: T -> int, k: string, j: nat)
    requires j < |items| && Itoa(id(items[j])) == k
    requires forall i | j < i < |items| :: Itoa(id(items[i])) != k
    ensures Latest(items, id, k) == items[j]
  {
    var n := |items| - 1;
    if j < n {
      var init := items[..n];
      assert items[j] in items;
      assert init[j] == items[j] && items[j] in init;
      LatestIsLast(init, id, k, j);
    }
  }

  /**
   * The loops that key the fetched projects (and activities) by `Itoa(id)`:
   * every id present becomes a key, and the item stored under it is the last
   * one in the list with that id.
   */
  method Index<T>(items: seq<T>, id: T -> int) returns (m: map<string, T>)
    ensures forall k :: k in m <==> exists x :: x in items && Itoa(id(x)) == k
    ensures forall k :: k in m ==> m[k] == Latest(items, id, k)
  {
    m := map[];
    var i := 0;
    while i < |items|
      invariant 0 <= i <= |items|
      invariant forall k :: k in m <==> exists x :: x in items[..i] && Itoa(id(x)) == k
      invariant forall k :: k in m ==> m[k] == Latest(items[..i], id, k)
    {
      var item := items[i];
      assert items[..i + 1] == items[..i] + [item];
      assert items[..i + 1][..i] == items[..i];
      m := m[Itoa(id(item)) := item];
      i := i + 1;
    }
    assert items[..i] == items;
  }

  /**
   * Resolving an entry's project id through the map: a known id gives a
   * project with that id (the last one listed), an unknown id gives the
   * zero project with its empty name, and no error.
   */
  lemma ResolveProject(projects: seq<Project>, pm: map<string, Project>, n: int)
    requires forall k :: k in pm <==> exists x :: x in projects && Itoa(x.id) == k
    requires forall k :: k in pm ==> pm[k] == Latest(projects, ProjectIdOf, k)
    ensures (exists x :: x in projects && x.id == n) ==> Lookup(pm, Itoa(n), ZeroProject).id == n
    ensures (forall x :: x in projects ==> x.id != n) ==> Lookup(pm, Itoa(n), ZeroProject) == ZeroProject
    ensures (forall x :: x in projects ==> x.id != n) ==> Lookup(pm, Itoa(n), ZeroProject).name == ""
  {
    forall x | x in projects && x.id == n ensures Itoa(n) in pm {
      assert Itoa(x.id) == Itoa(n);
    }
    if Itoa(n) in pm {
      ItoaInjective(pm[Itoa(n)].id, n);
    }
  }

  // ---------------------------------------------------------------------
  // What the grouping must produce, stated on the input list

  /** The time sheets that begin on day `d`, in input order. */
  function OnDay(ts: seq<TimeSheet>, d: string): seq<TimeSheet>
  {
    if ts == [] then []
    else
      var t := ts[|ts| - 1];
      OnDay(ts[..|ts| - 1], d) + (if DateKeyOf(t) == d then [t] else [])
  }

  /** The time sheets of project `p` on day `d`, in input order. */
  function OnProjectDay(ts: seq<TimeSheet>, d: string, p: string): seq<TimeSheet>
  {
    if ts == [] then []
    else
      var t := ts[|ts| - 1];
      OnProjectDay(ts[..|ts| - 1], d, p) + (if DateKeyOf(t) == d && ProjectKeyOf(t) == p then [t] else [])
  }

  /** The time sheets of activity `a` of project `p` on day `d`, in input order. */
  function Bucket(ts: seq<TimeSheet>, d: string, p: string, a: string): seq<TimeSheet>
  {
    if ts == [] then []
    else
      var t := ts[|ts| - 1];
      Bucket(ts[..|ts| - 1], d, p, a)
        + (if DateKeyOf(t) == d && ProjectKeyOf(t) == p && ActivityKeyOf(t) == a then [t] else [])
  }

  /** The (date key, project key) pairs the input mentions. */
  function Pairs(ts: seq<TimeSheet>): set<(string, string)>
  {
    set t | t in ts :: (DateKeyOf(t), ProjectKeyOf(t))
  }

  ghost predicate ActivityGroupOk(ts: seq<TimeSheet>, am: map<string, Activity>, d: string, p: string, a: string, g: ActivityEntries)
  {
    && g.activity == Lookup(am, a, ZeroActivity)
    && g.entries == Bucket(ts, d, p, a)
  }

  ghost predicate ProjectGroupOk(ts: seq<TimeSheet>, pm: map<string, Project>, am: map<string, Activity>, d: string, p: string, g: ProjectEntries)
  {
    && g.project == Lookup(pm, p, ZeroProject)
    && (forall a :: a in g.entries <==> Bucket(ts, d, p, a) != [])
    && (forall a | a in g.entries :: ActivityGroupOk(ts, am, d, p, a, g.entries[a]))
  }

  ghost predicate DateGroupOk(ts: seq<TimeSheet>, pm: map<string, Project>, am: map<string, Activity>, d: string, g: DateEntries)
  {
    && OnDay(ts, d) != []
    && g.date == OnDay(ts, d)[0].begin
    && (forall p :: p in g.entries <==> OnProjectDay(ts, d, p) != [])
    && (forall p | p in g.entries :: ProjectGroupOk(ts, pm, am, d, p, g.entries[p]))
  }

  /**
   * The hierarchy is the grouping of `ts`: a date key is present iff some
   * entry begins on that day, and its `Date` is the begin of the first such
   * entry; a project key is present under a day iff some entry of that
   * project begins that day, likewise for activities; projects and
   * activities are resolved through the lookup maps, falling back to the
   * zero value; and each activity bucket holds exactly its entries in input
   * order.
   */
  ghost predicate Grouped(ts: seq<TimeSheet>, pm: map<string, Project>, am: map<string, Activity>, h: Hierarchy)
  {
    && (forall d :: d in h <==> OnDay(ts, d) != [])
    && (forall d | d in h :: DateGroupOk(ts, pm, am, d, h[d]))
  }

  // ---------------------------------------------------------------------
  // Every entry reachable through the hierarchy

  ghost function ActivityLeaves(g: ActivityEntries): multiset<TimeSheet> { multiset(g.entries) }

  ghost function ProjectLeaves(g: ProjectEntries): multiset<TimeSheet>
  {
    SumOver(g.entries, g.entries.Keys, ActivityLeaves)
  }

  ghost function DateLeaves(g: DateEntries): multiset<TimeSheet>
  {
    SumOver(g.entries, g.entries.Keys, ProjectLeaves)
  }

  /** The entries found by walking date -> project -> activity -> entries. */
  ghost function Leaves(h: Hierarchy): multiset<TimeSheet>
  {
    SumOver(h, h.Keys, DateLeaves)
  }

  ghost function ProjectKeyBag(g: DateEntries): multiset<string> { multiset(g.entries.Keys) }

  /** The number of (date, project) groups in the hierarchy. */
  ghost function GroupCount(h: Hierarchy): nat
  {
    |SumOver(h, h.Keys, ProjectKeyBag)|
  }

  // ---------------------------------------------------------------------
  // One iteration of the grouping loop

  /** The hierarchy after `t` has been filed: the body of the grouping loop. */
  function Placed(h: Hierarchy, t: TimeSheet, pm: map<string, Project>, am: map<string, Activity>): Hierarchy
  {
    var date, projectId, activityId := DateKeyOf(t), ProjectKeyOf(t), ActivityKeyOf(t);
    var dateEntries := if date in h then h[date] else DateEntries(t.begin, map[]);
    var projectEntries :=
      if projectId in dateEntries.entries then dateEntries.entries[projectId]
      else ProjectEntries(Lookup(pm, projectId, ZeroProject), map[]);
    var activityEntries :=
      if activityId in projectEntries.entries then projectEntries.entries[activityId]
      else ActivityEntries(Lookup(am, activityId, ZeroActivity), []);
    var activityEntries' := activityEntries.(entries := activityEntries.entries + [t]);
    var projectEntries' := projectEntries.(entries := projectEntries.entries[activityId := activityEntries']);
    var dateEntries' := dateEntries.(entries := dateEntries.entries[projectId := projectEntries']);
    h[date := dateEntries']
  }

  lemma OnDayAppend(ts: seq<TimeSheet>, t: TimeSheet, d: string)
    ensures OnDay(ts + [t], d) == OnDay(ts, d) + (if DateKeyOf(t) == d then [t] else [])
  {
    assert (ts + [t])[..|ts|] == ts;
  }

  lemma OnProjectDayAppend(ts: seq<TimeSheet>, t: TimeSheet, d: string, p: string)
    ensures OnProjectDay(ts + [t], d, p)
      == OnProjectDay(ts, d, p) + (if DateKeyOf(t) == d && ProjectKeyOf(t) == p then [t] else [])
  {
    assert (ts + [t])[..|ts|] == ts;
  }

  lemma BucketAppend(ts: seq<TimeSheet>, t: TimeSheet, d: string, p: string, a: string)
    ensures Bucket(ts + [t], d, p, a)
      == Bucket(ts, d, p, a) + (if DateKeyOf(t) == d && ProjectKeyOf(t) == p && ActivityKeyOf(t) == a then [t] else [])
  {
    assert (ts + [t])[..|ts|] == ts;
  }

  /** A day without entries has no project with entries that day. */
  lemma {:induction false} NoDayNoProject(ts: seq<TimeSheet>, d: string, p: string)
    requires OnDay(ts, d) == []
    ensures OnProjectDay(ts, d, p) == []
  {
    if ts != [] {
      NoDayNoProject(ts[..|ts| - 1], d, p);
    }
  }

  /** A project without entries on a day has no activity with entries there. */
  lemma {:induction false} NoProjectNoBucket(ts: seq<TimeSheet>, d: string, p: string, a: string)
    requires OnProjectDay(ts, d, p) == []
    ensures Bucket(ts, d, p, a) == []
  {
    if ts != [] {
      NoProjectNoBucket(ts[..|ts| - 1], d, p, a);
    }
  }

  /** The groups of another activity are left alone, and remain right for the longer list. */
  lemma ProjectGroupUnchanged(ts: seq<TimeSheet>, t: TimeSheet, pm: map<string, Project>, am: map<string, Activity>, d: string, p: string, g: ProjectEntries)
    requires ProjectGroupOk(ts, pm, am, d, p, g) && (DateKeyOf(t) != d || ProjectKeyOf(t) != p)
    ensures ProjectGroupOk(ts + [t], pm, am, d, p, g)
  {
    forall a ensures Bucket(ts + [t], d, p, a) == Bucket(ts, d, p, a) {
      BucketAppend(ts, t, d, p, a);
    }
  }

  /** The groups of another day are left alone, and remain right for the longer list. */
  lemma DateGroupUnchanged(ts: seq<TimeSheet>, t: TimeSheet, pm: map<string, Project>, am: map<string, Activity>, d: string, g: DateEntries)
    requires DateGroupOk(ts, pm, am, d, g) && DateKeyOf(t) != d
    ensures DateGroupOk(ts + [t], pm, am, d, g)
  {
    OnDayAppend(ts, t, d);
    forall p ensures OnProjectDay(ts + [t], d, p) == OnProjectDay(ts, d, p) {
      OnProjectDayAppend(ts, t, d, p);
    }
    forall p | p in g.entries ensures ProjectGroupOk(ts + [t], pm, am, d, p, g.entries[p]) {
      ProjectGroupUnchanged(ts, t, pm, am, d, p, g.entries[p]);
    }
  }

  /** The project group `t` is filed under, as found before filing (or freshly made). */
  function ProjectSlot(g: DateEntries, t: TimeSheet, pm: map<string, Project>): ProjectEntries
  {
    var projectId := ProjectKeyOf(t);
    if projectId in g.entries then g.entries[projectId] else ProjectEntries(Lookup(pm, projectId, ZeroProject), map[])
  }

  /** The activity group `t` is filed under, as found before filing (or freshly made). */
  function ActivitySlot(g: ProjectEntries, t: TimeSheet, am: map<string, Activity>): ActivityEntries
  {
    var activityId := ActivityKeyOf(t);
    if activityId in g.entries then g.entries[activityId] else ActivityEntries(Lookup(am, activityId, ZeroActivity), [])
  }

  /** The day group `t` is filed under, as found before filing (or freshly made). */
  function DateSlot(h: Hierarchy, t: TimeSheet): DateEntries
  {
    var date := DateKeyOf(t);
    if date in h then h[date] else DateEntries(t.begin, map[])
  }

  lemma PlacedParts(h: Hierarchy, t: TimeSheet, pm: map<string, Project>, am: map<string, Activity>)
    ensures
      var dg := DateSlot(h, t);
      var pg := ProjectSlot(dg, t, pm);
      var ag := ActivitySlot(pg, t, am);
      var pg' := pg.(entries := pg.entries[ActivityKeyOf(t) := ag.(entries := ag.entries + [t])]);
      Placed(h, t, pm, am) == h[DateKeyOf(t) := dg.(entries := dg.entries[ProjectKeyOf(t) := pg'])]
  {
  }

  /** The project group `t` lands in is right for the longer list. */
  lemma FiledProjectGroup(ts: seq<TimeSheet>, t: TimeSheet, pm: map<string, Project>, am: map<string, Activity>, pg: ProjectEntries)
    requires pg.project == Lookup(pm, ProjectKeyOf(t), ZeroProject)
    requires forall a :: a in pg.entries <==> Bucket(ts, DateKeyOf(t), ProjectKeyOf(t), a) != []
    requires forall a | a in pg.entries :: ActivityGroupOk(ts, am, DateKeyOf(t), ProjectKeyOf(t), a, pg.entries[a])
    ensures
      var ag := ActivitySlot(pg, t, am);
      ProjectGroupOk(ts + [t], pm, am, DateKeyOf(t), ProjectKeyOf(t),
        pg.(entries := pg.entries[ActivityKeyOf(t) := ag.(entries := ag.entries + [t])]))
  {
    var date, projectId, activityId := DateKeyOf(t), ProjectKeyOf(t), ActivityKeyOf(t);
    var ag := ActivitySlot(pg, t, am);
    var m := pg.entries[activityId := ag.(entries := ag.entries + [t])];
    forall a ensures a in m <==> Bucket(ts + [t], date, projectId, a) != [] {
      BucketAppend(ts, t, date, projectId, a);
    }
    forall a | a in m ensures ActivityGroupOk(ts + [t], am, date, projectId, a, m[a]) {
      FiledActivity(ts, t, am, pg, a);
    }
  }

  /** One activity group of the project group `t` lands in is right for the longer list. */
  lemma FiledActivity(ts: seq<TimeSheet>, t: TimeSheet, am: map<string, Activity>, pg: ProjectEntries, a: string)
    requires forall a :: a in pg.entries <==> Bucket(ts, DateKeyOf(t), ProjectKeyOf(t), a) != []
    requires forall a | a in pg.entries :: ActivityGroupOk(ts, am, DateKeyOf(t), ProjectKeyOf(t), a, pg.entries[a])
    requires
      var ag := ActivitySlot(pg, t, am);
      a in pg.entries[ActivityKeyOf(t) := ag.(entries := ag.entries + [t])]
    ensures
      var ag := ActivitySlot(pg, t, am);
      var m := pg.entries[ActivityKeyOf(t) := ag.(entries := ag.entries + [t])];
      ActivityGroupOk(ts + [t], am, DateKeyOf(t), ProjectKeyOf(t), a, m[a])
  {
    var date, projectId, activityId := DateKeyOf(t), ProjectKeyOf(t), ActivityKeyOf(t);
    BucketAppend(ts, t, date, projectId, a);
    if a == activityId {
      if activityId in pg.entries {
        assert ActivityGroupOk(ts, am, date, projectId, a, pg.entries[a]);
      } else {
        assert Bucket(ts, date, projectId, a) == [];
      }
    } else {
      assert ActivityGroupOk(ts, am, date, projectId, a, pg.entries[a]);
    }
  }

  /** The day group `t` lands in is right for the longer list. */
  lemma FiledDateGroup(ts: seq<TimeSheet>, t: TimeSheet, pm: map<string, Project>, am: map<string, Activity>, h: Hierarchy)
    requires Grouped(ts, pm, am, h)
    ensures DateGroupOk(ts + [t], pm, am, DateKeyOf(t), Placed(h, t, pm, am)[DateKeyOf(t)])
  {
    var s := ts + [t];
    var date, projectId := DateKeyOf(t), ProjectKeyOf(t);
    var dg := DateSlot(h, t);
    var pg := ProjectSlot(dg, t, pm);
    PlacedParts(h, t, pm, am);
    var dg' := Placed(h, t, pm, am)[date];
    OnDayAppend(ts, t, date);
    if date in h {
      assert DateGroupOk(ts, pm, am, date, dg);
    } else {
      forall p ensures OnProjectDay(ts, date, p) == [] {
        NoDayNoProject(ts, date, p);
      }
    }
    // The project group before filing is right for the entries so far.
    if projectId in dg.entries {
      assert ProjectGroupOk(ts, pm, am, date, projectId, pg);
    } else {
      forall a ensures Bucket(ts, date, projectId, a) == [] {
        NoProjectNoBucket(ts, date, projectId, a);
      }
    }
    FiledProjectGroup(ts, t, pm, am, pg);
    forall p ensures p in dg'.entries <==> OnProjectDay(s, date, p) != [] {
      OnProjectDayAppend(ts, t, date, p);
    }
    forall p | p in dg'.entries ensures ProjectGroupOk(s, pm, am, date, p, dg'.entries[p]) {
      if p != projectId {
        ProjectGroupUnchanged(ts, t, pm, am, date, p, dg.entries[p]);
      }
    }
  }

  /** Filing one entry keeps the hierarchy the grouping of the entries seen so far. */
  lemma PlacedGrouped(ts: seq<TimeSheet>, t: TimeSheet, pm: map<string, Project>, am: map<string, Activity>, h: Hierarchy)
    requires Grouped(ts, pm, am, h)
    ensures Grouped(ts + [t], pm, am, Placed(h, t, pm, am))
  {
    var h' := Placed(h, t, pm, am);
    var date := DateKeyOf(t);
    PlacedParts(h, t, pm, am);
    forall d ensures d in h' <==> OnDay(ts + [t], d) != [] {
      OnDayAppend(ts, t, d);
    }
    forall d | d in h' ensures DateGroupOk(ts + [t], pm, am, d, h'[d]) {
      if d == date {
        FiledDateGroup(ts, t, pm, am, h);
      } else {
        DateGroupUnchanged(ts, t, pm, am, d, h[d]);
      }
    }
  }

  /** Filing one entry adds exactly that entry to what the hierarchy reaches. */
  lemma PlacedLeaves(h: Hierarchy, t: TimeSheet, pm: map<string, Project>, am: map<string, Activity>)
    ensures Leaves(Placed(h, t, pm, am)) == Leaves(h) + multiset{t}
  {
    var dg := DateSlot(h, t);
    var pg := ProjectSlot(dg, t, pm);
    var ag := ActivitySlot(pg, t, am);
    var ag' := ag.(entries := ag.entries + [t]);
    var pg' := pg.(entries := pg.entries[ActivityKeyOf(t) := ag']);
    var dg' := dg.(entries := dg.entries[ProjectKeyOf(t) := pg']);
    PlacedParts(h, t, pm, am);
    SumOverUpdate(pg.entries, ActivityKeyOf(t), ag', ActivityLeaves, multiset{t});
    SumOverUpdate(dg.entries, ProjectKeyOf(t), pg', ProjectLeaves, multiset{t});
    SumOverUpdate(h, DateKeyOf(t), dg', DateLeaves, multiset{t});
  }

  /** The project `t` is filed under is already a group of its day iff an earlier entry has the same pair. */
  lemma KnownPair(ts: seq<TimeSheet>, t: TimeSheet, pm: map<string, Project>, am: map<string, Activity>, h: Hierarchy)
    requires Grouped(ts, pm, am, h)
    ensures ProjectKeyOf(t) in DateSlot(h, t).entries <==> (DateKeyOf(t), ProjectKeyOf(t)) in Pairs(ts)
  {
    var date, projectId := DateKeyOf(t), ProjectKeyOf(t);
    PairsOnProjectDay(ts, date, projectId);
    if date in h {
      assert DateGroupOk(ts, pm, am, date, h[date]);
    } else {
      NoDayNoProject(ts, date, projectId);
    }
  }

  lemma KnownPairOf(ts: seq<TimeSheet>, t: TimeSheet, pm: map<string, Project>, am: map<string, Activity>)
    ensures ProjectKeyOf(t) in DateSlot(GroupOf(ts, pm, am), t).entries <==> (DateKeyOf(t), ProjectKeyOf(t)) in Pairs(ts)
  {
    GroupOfGrouped(ts, pm, am);
    KnownPair(ts, t, pm, am, GroupOf(ts, pm, am));
  }

  /** Filing one entry opens a new (date, project) group exactly when its day has no group for its project. */
  lemma PlacedGroupCount(t: TimeSheet, pm: map<string, Project>, am: map<string, Activity>, h: Hierarchy)
    ensures GroupCount(Placed(h, t, pm, am)) == GroupCount(h) + (if ProjectKeyOf(t) in DateSlot(h, t).entries then 0 else 1)
  {
    var isNew := ProjectKeyOf(t) !in DateSlot(h, t).entries;
    var extra := if isNew then multiset{ProjectKeyOf(t)} else multiset{};
    PlacedKeyBag(h, t, pm, am);
    PlacedParts(h, t, pm, am);
    SumOverUpdate(h, DateKeyOf(t), Placed(h, t, pm, am)[DateKeyOf(t)], ProjectKeyBag, extra);
  }

  lemma PlacedKeyBag(h: Hierarchy, t: TimeSheet, pm: map<string, Project>, am: map<string, Activity>)
    ensures
      var dg := DateSlot(h, t);
      ProjectKeyBag(Placed(h, t, pm, am)[DateKeyOf(t)])
        == ProjectKeyBag(dg) + (if ProjectKeyOf(t) in dg.entries then multiset{} else multiset{ProjectKeyOf(t)})
  {
    var dg := DateSlot(h, t);
    PlacedParts(h, t, pm, am);
    assert Placed(h, t, pm, am)[DateKeyOf(t)].entries.Keys == dg.entries.Keys + {ProjectKeyOf(t)};
  }

  /** The last entry adds a pair exactly when its pair is new. */
  lemma PairsCount(ts: seq<TimeSheet>)
    requires ts != []
    ensures var t := ts[|ts| - 1];
      |Pairs(ts)| == |Pairs(ts[..|ts| - 1])| + (if (DateKeyOf(t), ProjectKeyOf(t)) in Pairs(ts[..|ts| - 1]) then 0 else 1)
  {
    var init, t := ts[..|ts| - 1], ts[|ts| - 1];
    assert ts == init + [t];
    PairsAppend(init, t);
  }

  lemma PairsAppend(ts: seq<TimeSheet>, t: TimeSheet)
    ensures Pairs(ts + [t]) == Pairs(ts) + {(DateKeyOf(t), ProjectKeyOf(t))}
  {
    var s := ts + [t];
    forall x | x in Pairs(s) ensures x in Pairs(ts) + {(DateKeyOf(t), ProjectKeyOf(t))} {
      var u :| u in s && x == (DateKeyOf(u), ProjectKeyOf(u));
      if u != t {
        assert u in ts;
      }
    }
    forall x | x in Pairs(ts) ensures x in Pairs(s) {
      var u :| u in ts && x == (DateKeyOf(u), ProjectKeyOf(u));
      assert u in s;
    }
    assert t in s;
  }

  /** A pair occurs in the input iff that project has entries on that day. */
  lemma {:induction false} PairsOnProjectDay(ts: seq<TimeSheet>, d: string, p: string)
    ensures (d, p) in Pairs(ts) <==> OnProjectDay(ts, d, p) != []
  {
    if ts != [] {
      var init, t := ts[..|ts| - 1], ts[|ts| - 1];
      assert ts == init + [t];
      PairsOnProjectDay(init, d, p);
      PairsAppend(init, t);
    }
  }

  // ---------------------------------------------------------------------
  // The grouping loop

  /** The date keys of the input, one per entry, in input order. */
  function DateKeySeq(ts: seq<TimeSheet>): (r: seq<string>)
    ensures |r| == |ts|
  {
    if ts == [] then [] else DateKeySeq(ts[..|ts| - 1]) + [DateKeyOf(ts[|ts| - 1])]
  }

  /** The hierarchy the grouping loop has built after filing all of `ts`, in order. */
  function GroupOf(ts: seq<TimeSheet>, pm: map<string, Project>, am: map<string, Activity>): Hierarchy
  {
    if ts == [] then map[] else Placed(GroupOf(ts[..|ts| - 1], pm, am), ts[|ts| - 1], pm, am)
  }

  /**
   * The hierarchy built from `ts` is the grouping of `ts`: the right keys
   * at every level, the right `Date`, project and activity at every node,
   * and each entry in its bucket in input order.
   */
  lemma {:induction false} GroupOfGrouped(ts: seq<TimeSheet>, pm: map<string, Project>, am: map<string, Activity>)
    ensures Grouped(ts, pm, am, GroupOf(ts, pm, am))
  {
    if ts != [] {
      var init, t := ts[..|ts| - 1], ts[|ts| - 1];
      GroupOfGrouped(init, pm, am);
      assert ts == init + [t];
      PlacedGrouped(init, t, pm, am, GroupOf(init, pm, am));
    }
  }

  /** Every input entry is reachable through the hierarchy, exactly as often as it occurs. */
  lemma {:induction false} GroupOfLeaves(ts: seq<TimeSheet>, pm: map<string, Project>, am: map<string, Activity>)
    ensures Leaves(GroupOf(ts, pm, am)) == multiset(ts)
  {
    if ts != [] {
      var init, t := ts[..|ts| - 1], ts[|ts| - 1];
      GroupOfLeaves(init, pm, am);
      assert ts == init + [t];
      PlacedLeaves(GroupOf(init, pm, am), t, pm, am);
    }
  }

  /** There is one (date, project) group per distinct pair in the input. */
  lemma {:induction false} GroupOfCount(ts: seq<TimeSheet>, pm: map<string, Project>, am: map<string, Activity>)
    ensures GroupCount(GroupOf(ts, pm, am)) == |Pairs(ts)|
  {
    if ts == [] {
      assert Pairs(ts) == {};
    } else {
      var init, t := ts[..|ts| - 1], ts[|ts| - 1];
      GroupOfCount(init, pm, am);
      KnownPairOf(init, t, pm, am);
      PlacedGroupCount(t, pm, am, GroupOf(init, pm, am));
      PairsCount(ts);
    }
  }

  /**
   * The body of timesheet.go's grouping loop: look up (or create) the day's
   * container, the project's container inside it and the activity's
   * container inside that, append the entry, and store the three back.
   */
  method File(entries: Hierarchy, timeSheet: TimeSheet, projectMap: map<string, Project>, activityMap: map<string, Activity>)
    returns (entries': Hierarchy)
    ensures entries' == Placed(entries, timeSheet, projectMap, activityMap)
  {
    var date := DateKeyOf(timeSheet);
    var projectId := ProjectKeyOf(timeSheet);
    var activityId := ActivityKeyOf(timeSheet);

    var dateEntries := if date in entries then entries[date] else DateEntries(timeSheet.begin, map[]);
    var projectEntries :=
      if projectId in dateEntries.entries then dateEntries.entries[projectId]
      else ProjectEntries(Lookup(projectMap, projectId, ZeroProject), map[]);
    var activityEntries :=
      if activityId in projectEntries.entries then projectEntries.entries[activityId]
      else ActivityEntries(Lookup(activityMap, activityId, ZeroActivity), []);

    activityEntries := activityEntries.(entries := activityEntries.entries + [timeSheet]);
    projectEntries := projectEntries.(entries := projectEntries.entries[activityId := activityEntries]);
    dateEntries := dateEntries.(entries := dateEntries.entries[projectId := projectEntries]);
    entries' := entries[date := dateEntries];
  }

  /**
   * timesheet.go's grouping loop and `slices.Sort(dates)`. The map
   * `entries` is built as `Grouped` describes; it reaches every input entry
   * exactly once; it has one (date, project) group per distinct pair in the
   * input; and `dates` holds the date keys in first-seen order, sorted:
   * every key of `entries` once, in ascending order.
   */
  method Group(timeSheets: seq<TimeSheet>, projectMap: map<string, Project>, activityMap: map<string, Activity>)
    returns (entries: Hierarchy, dates: seq<string>)
    ensures entries == GroupOf(timeSheets, projectMap, activityMap)
    ensures Grouped(timeSheets, projectMap, activityMap, entries)
    ensures Leaves(entries) == multiset(timeSheets)
    ensures GroupCount(entries) == |Pairs(timeSheets)|
    ensures multiset(dates) == multiset(Dedup([], DateKeySeq(timeSheets)))
    ensures forall d :: d in dates <==> d in entries
    ensures StrictlyAscending(dates)
  {
    entries := map[];
    var seen: seq<string> := [];
    var i := 0;
    while i < |timeSheets|
      invariant 0 <= i <= |timeSheets|
      invariant entries == GroupOf(timeSheets[..i], projectMap, activityMap)
      invariant seen == Dedup([], DateKeySeq(timeSheets[..i]))
    {
      var timeSheet := timeSheets[i];
      var date := DateKeyOf(timeSheet);
      entries := File(entries, timeSheet, projectMap, activityMap);
      if date !in seen {
        seen := seen + [date];
      }
      GroupStep(timeSheets, i, projectMap, activityMap);
      i := i + 1;
    }
    assert timeSheets[..i] == timeSheets;
    GroupOfFacts(timeSheets, projectMap, activityMap);
    dates := Sort(seen);
    SortedDates(timeSheets, entries, seen, dates);
  }

  /** One more entry filed, one more date key seen. */
  lemma GroupStep(ts: seq<TimeSheet>, i: nat, pm: map<string, Project>, am: map<string, Activity>)
    requires i < |ts|
    ensures GroupOf(ts[..i + 1], pm, am) == Placed(GroupOf(ts[..i], pm, am), ts[i], pm, am)
    ensures Dedup([], DateKeySeq(ts[..i + 1])) == AddNew(Dedup([], DateKeySeq(ts[..i])), DateKeyOf(ts[i]))
  {
    PrefixLast(ts, i);
    GroupOfLast(ts[..i + 1], pm, am);
    DateKeySeqLast(ts[..i + 1]);
  }

  lemma PrefixLast(ts: seq<TimeSheet>, i: nat)
    requires i < |ts|
    ensures var s := ts[..i + 1]; s[..|s| - 1] == ts[..i] && s[|s| - 1] == ts[i]
  {
  }

  lemma GroupOfLast(ts: seq<TimeSheet>, pm: map<string, Project>, am: map<string, Activity>)
    requires ts != []
    ensures GroupOf(ts, pm, am) == Placed(GroupOf(ts[..|ts| - 1], pm, am), ts[|ts| - 1], pm, am)
  {
  }

  lemma DateKeySeqLast(ts: seq<TimeSheet>)
    requires ts != []
    ensures Dedup([], DateKeySeq(ts)) == AddNew(Dedup([], DateKeySeq(ts[..|ts| - 1])), DateKeyOf(ts[|ts| - 1]))
  {
    var d := DateKeySeq(ts);
    assert d[..|d| - 1] == DateKeySeq(ts[..|ts| - 1]);
  }

  lemma GroupOfFacts(ts: seq<TimeSheet>, pm: map<string, Project>, am: map<string, Activity>)
    ensures Grouped(ts, pm, am, GroupOf(ts, pm, am))
    ensures Leaves(GroupOf(ts, pm, am)) == multiset(ts)
    ensures GroupCount(GroupOf(ts, pm, am)) == |Pairs(ts)|
  {
    GroupOfGrouped(ts, pm, am);
    GroupOfLeaves(ts, pm, am);
    GroupOfCount(ts, pm, am);
  }

  /** The sorted first-seen date keys are exactly the hierarchy's keys, ascending. */
  lemma SortedDates(ts: seq<TimeSheet>, h: Hierarchy, seen: seq<string>, dates: seq<string>)
    requires forall d :: d in h <==> OnDay(ts, d) != []
    requires seen == Dedup([], DateKeySeq(ts))
    requires Sorted(dates) && multiset(dates) == multiset(seen)
    ensures forall d :: d in dates <==> d in h
    ensures StrictlyAscending(dates)
  {
    DedupNoDup([], DateKeySeq(ts));
    DedupMembers([], DateKeySeq(ts));
    DateKeysSeen(ts);
    NoDupPermutation(seen, dates);
    DistinctSortedAscending(dates);
    forall d ensures d in dates <==> d in seen {
      assert d in dates <==> d in multiset(dates);
      assert d in seen <==> d in multiset(seen);
    }
  }

  /** A date key occurs in the input iff some entry begins on that day. */
  lemma {:induction false} DateKeysSeen(ts: seq<TimeSheet>)
    ensures forall d :: d in DateKeySeq(ts) <==> OnDay(ts, d) != []
  {
    if ts != [] {
      var init := ts[..|ts| - 1];
      DateKeysSeen(init);
      assert DateKeySeq(ts) == DateKeySeq(init) + [DateKeyOf(ts[|ts| - 1])];
    }
  }

  /** Rearranging a duplicate-free list leaves it duplicate-free. */
  lemma NoDupPermutation<T>(a: seq<T>, b: seq<T>)
    requires NoDup(a) && multiset(a) == multiset(b)
    ensures NoDup(b)
  {
    forall i, j | 0 <= i < j < |b| ensures b[i] != b[j] {
      if b[i] == b[j] {
        assert b == b[..j] + [b[j]] + b[j + 1..];
        assert b[i] in b[..j];
        assert multiset(b)[b[i]] >= 2 by {
          assert multiset(b) == multiset(b[..j]) + multiset{b[j]} + multiset(b[j + 1..]);
        }
        NoDupCount(a, b[i]);
      }
    }
  }

  lemma {:induction false} NoDupCount<T>(a: seq<T>, x: T)
    requires NoDup(a)
    ensures multiset(a)[x] <= 1
  {
    if a != [] {
      assert NoDup(a[1..]);
      NoDupCount(a[1..], x);
      assert a == [a[0]] + a[1..];
    }
  }
}
