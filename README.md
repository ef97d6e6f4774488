# kimai2csv report engine, in Dafny

This project models the report engine of `timesheet.go`'s `main`: everything that happens after the
Kimai service has returned its projects, activities and time sheets. That is:

- the lookup maps keyed by `strconv.Itoa(id)`;
- the grouping loop, which files every time sheet under date key ("2006-01-02") → project id →
  activity id and creates the containers on demand;
- the `dates` list of first-seen date keys and its sort;
- the totals loop over the sorted days;
- the CSV file in both modes:
  - the header line;
  - in the extended mode, one line per time sheet with the activity's name;
  - in the condensed mode, one line per (day, project). That line holds a 09:00 block lasting the
    summed duration, the summed hours and amount, and the trimmed comma-separated pieces of the
    descriptions, each kept once in first-seen order and joined with ", ".

The Kimai records (`Project`, `Activity`, `TimeSheet` from `kimai/client.go`) are plain datatypes.
Durations are whole seconds and rates are whole cents, so every sum is exact. Go's maps become
Dafny `map`s. Go's unspecified map iteration order becomes a `var k :| k in keys` choice in each
loop. The file is the sequence of lines the program writes.

Each imperative part of `main` is a method with loops and invariants, proved against a pure
specification function on the input list:

| module | methods | specification it is proved against |
|---|---|---|
| `Grouping` | `Index`, `File`, `Group` | `Latest`, `Placed`, `GroupOf`, `Grouped`, `Leaves`, `Pairs` |
| `KeySort` | `Sort` | `Sorted` |
| `Totals` | `Sum` | `SeqTotal` |
| `Condense` | `CondenseProject` | `Dedup`, `Fragments` |
| `Csv` | `WriteCsv` | `Lines` over a ghost sequence of project-day blocks (`Origin`s) |
| `Report` | `Report` | ties it all together: `ExtendedFile`, `CondensedFile` |

The writer is specified over a ghost sequence of project-day blocks, one per (day, project)
container in the order the loops reach them. Each block is a `Group(day, project, activityOrder,
entriesInVisitOrder)`: the order the map walk took the project's activities in, and their entries
joined in that order. The lines come from the blocks (`Csv.Trace`):

- in the extended mode, one `Entry(day, project, timeSheet)` origin per entry of each block, in
  order, each giving one line;
- in the condensed mode, the blocks themselves, each giving one line.

`Report.Report` states the whole program's output on the fetched lists alone:

- the totals are the sums over the input;
- without a CSV file, no lines are written;
- the extended file is the header followed by one line per input entry. Every entry appears exactly
  as often as it was fetched, and each line is that entry's own line. The lines run block by block:
  each input (day, project) pair is one block, the blocks run day by day in ascending order, and
  within a block come the pair's activities one after the other, each once, each activity's
  entries in input order;
- the condensed file is the header followed by one line per distinct (day, project) pair of the
  input. Each pair appears once, each line is computed from that pair's entries as the walk visits
  them (each activity once, its entries in input order), and the lines run day by day.

## Model

| member | source | states |
|---|---|---|
| Grouping.Latest | timesheet.go:109-112 | the item a key resolves to is one of the listed items, and its id prints as the key |
| Grouping.LatestIsLast | timesheet.go:109-112 | the item a key resolves to is the one at the last position whose id prints as the key: no later item has that id |
| Grouping.Index | timesheet.go:106-117 | the map's keys are exactly the printed ids of the listed items; each key holds the last listed item with that id (later items overwrite earlier ones) |
| Grouping.ResolveProject | timesheet.go:140-141 | resolving a listed id yields a project with that id; resolving an unlisted id yields the zero project, whose name is empty, and no failure |
| Report.ProjectNameLatest | timesheet.go:109-112 | the name looked up for a key is that of the last listed project with that id, or "" when none has it |
| Report.ActivityNameLatest | timesheet.go:114-117 | the same for activities |
| Report.ProjectLookup | timesheet.go:141 | the project name stored in a grouping container equals the name the fetched project list gives for that id ("" for an unknown id) |
| Report.ActivityLookup | timesheet.go:250 | `activityMap[activityId].Name` equals the name the fetched activity list gives for that id ("" for an unknown id) |
| Grouping.File | timesheet.go:128-158 | one iteration of the grouping loop: it looks up or creates the day, project and activity containers, appends the entry and writes all three back, giving `Placed` |
| Grouping.PlacedLeaves | timesheet.go:146-158 | filing an entry adds exactly that entry to the multiset of entries reachable through the containers |
| Grouping.PlacedGrouped | timesheet.go:128-158 | filing the next entry turns a grouping of the first entries into a grouping of one entry more |
| Grouping.FiledDateGroup | timesheet.go:128-135 | the filed entry's day container keeps the `Date` it had: the begin of that day's first entry, or the new entry's begin when the day is new |
| Grouping.FiledProjectGroup | timesheet.go:137-157 | the filed entry's project container resolves its project through the map and gains the entry at the end of its activity's bucket |
| Grouping.FiledActivity | timesheet.go:146-156 | each activity container of that project container resolves its activity through the map and holds exactly that activity's bucket of the longer input |
| Grouping.ProjectGroupUnchanged | timesheet.go:155-158 | a project container of another day or project still matches the longer input |
| Grouping.DateGroupUnchanged | timesheet.go:155-158 | a day container of another day still matches the longer input |
| Grouping.KnownPair | timesheet.go:137-144 | a project container already exists under the entry's day iff the earlier input has that (day, project) pair |
| Grouping.PlacedGroupCount | timesheet.go:137-144 | filing an entry creates one new (day, project) container exactly when its project is new on that day |
| Grouping.GroupOfGrouped | timesheet.go:123-163 | after the loop, a day key exists iff some entry begins that day, with `Date` the begin of its first entry. A project or activity key exists iff some entry of it begins that day. Projects and activities resolve through the maps, falling back to the zero value. Each activity bucket holds exactly its entries, in input order |
| Grouping.GroupOfLeaves | timesheet.go:123-163 | the entries reachable date → project → activity are exactly the input entries, as a multiset: nothing is dropped or duplicated |
| Grouping.GroupOfCount | timesheet.go:123-163 | there is exactly one project container per distinct (day, project) pair of the input |
| Grouping.DateKeysSeen | timesheet.go:124 | a date key occurs among the entries' keys iff some entry begins on that day |
| Grouping.Group | timesheet.go:119-165 | the grouping loop and the sort. The map is the grouping of the input, reaches every entry once and has one container per (day, project) pair. `dates` holds each key of the map exactly once, in strictly ascending order |
| Grouping.SortedDates | timesheet.go:160-165 | sorting the first-seen date keys gives exactly the keys of the map, strictly ascending |
| Grouping.PairsOnProjectDay | timesheet.go:137-144 | a (day, project) pair occurs in the input iff that project has an entry on that day |
| KeySort.Insert | timesheet.go:165 | inserting a key into a sorted list keeps it sorted and adds exactly that key |
| KeySort.Sort | timesheet.go:165 | `slices.Sort(dates)`: the result is sorted and a permutation of the input |
| KeySort.SortedUnique | timesheet.go:165 | two sorted permutations of the same keys are equal, so the sorted order does not depend on the algorithm |
| KeySort.DistinctSortedAscending | timesheet.go:160-165 | a sorted list without duplicates is strictly ascending |
| Layout.DateKeyOrder | timesheet.go:124 | for four-digit years, two begins have the same date key iff they fall on the same calendar day; the keys compare as strings (`slices.Sort`) iff the first day is earlier |
| Layout.ClockAfterMidnight | timesheet.go:282-288 | the "15:04" reading of a time `seconds` after midnight is two digits, ':' and two digits, denoting the whole minutes elapsed since the last midnight |
| Text.AtoiItoa | timesheet.go:110 | `strconv.Itoa` is inverted by reading the number back, so distinct ids give distinct keys |
| Text.ItoaInjective | timesheet.go:125-126 | two ids print as the same key iff they are equal |
| Text.LessDigits | timesheet.go:165 | for digit strings of equal width, string order is numeric order |
| Text.SplitJoin | timesheet.go:267 | splitting at a separator that occurs in no field gives back the joined fields |
| Text.JoinSplit | timesheet.go:267 | joining the pieces `strings.Split` returns, with the separator, gives back the text |
| Text.Split | timesheet.go:267 | `strings.Split` yields one more piece than there are separators, and no piece contains the separator |
| Text.TrimSpaceShape | timesheet.go:270 | `strings.TrimSpace` returns a contiguous slice of its input with only white space cut at either end, and starts and ends with non-space |
| Text.TrimSpaceIdempotent | timesheet.go:270 | trimming twice is trimming once |
| Totals.AddEntries | timesheet.go:185-197 | the innermost totals loop adds the entries' durations and rates to the running totals |
| Totals.AddActivities | timesheet.go:180-199 | the loop over a project's activities adds the totals of some ordering of exactly that project's entries |
| Totals.AddProjects | timesheet.go:177-200 | the loop over a day's projects adds the totals of some ordering of exactly that day's entries |
| Totals.Sum | timesheet.go:170-201 | the loop over the sorted days sums over some ordering of exactly the entries the containers hold |
| Totals.SeqTotalPermutation | timesheet.go:170-201 | the totals do not depend on the order in which the entries are added |
| Totals.SeqTotalAppend | timesheet.go:195-196 | the totals of two runs of entries together are the sums of their totals |
| Totals.TotalsOfInput | timesheet.go:167-201 | the accumulated duration and amount equal the sums of `Duration` and `Rate` over the input, however the entries were grouped |
| Condense.AddDoings | timesheet.go:267-275 | the inner loop adds each trimmed comma-separated piece of one description unless it is already listed |
| Condense.CondenseEntries | timesheet.go:266-279 | the loop over one activity's entries collects their pieces in order and adds their durations and rates |
| Condense.CondenseProject | timesheet.go:259-280 | the condensed aggregation of one project-day visits each activity once (in map order) and each activity's entries in order. Its totals are those of all the project-day's entries, and its pieces are the de-duplicated pieces in visit order |
| Condense.DoingsOfGroup | timesheet.go:259-275 | the description column has no duplicates; it contains a string iff that string is a trimmed piece of some visited entry's description; the pieces stand in the order of their first occurrence |
| Condense.PiecesOfAnyVisit | timesheet.go:265-275 | which pieces appear does not depend on the map's visit order, only their order does |
| Condense.DoingShape | timesheet.go:267-270 | every piece is free of commas and has no white space at either end |
| Condense.FragmentsMembers | timesheet.go:266-275 | a piece occurs among the fragments iff it is a piece of some entry's description |
| Condense.TrimmedMembers | timesheet.go:269-270 | a string is among the trimmed pieces iff it is the trim of some piece |
| Distinct.DedupNoDup | timesheet.go:272-274 | append-unless-contained never creates a duplicate |
| Distinct.DedupMembers | timesheet.go:272-274 | the collected list holds exactly what it started with and what it was offered |
| Distinct.DedupFirstOccurrenceOrder | timesheet.go:272-274 | the collected list keeps the values in the order of their first occurrence |
| Distinct.DedupCharacterized | timesheet.go:272-274 | a duplicate-free list of exactly the offered values, in first-occurrence order, is the collected list: the three properties determine it |
| Distinct.DedupAppend | timesheet.go:265-275 | collecting over two runs in turn is collecting over both together |
| Distinct.DedupExtends | timesheet.go:272-274 | what is already collected stays in front, unchanged |
| Csv.HoursRounding | timesheet.go:241 | the printed hundredths of an hour are within half a hundredth of the exact duration |
| Csv.Fixed2Reads | timesheet.go:243-252 | a `%.2f` text has a '-' exactly for negatives; the rest has at least four characters, no sign, digits, a point and two digits, and the two digit runs read back as the value in hundredths |
| Csv.Fixed2Plain | timesheet.go:243-252 | a printed number contains no ';' and no line break |
| Csv.RowFields | timesheet.go:243-253 | a line read back (line break dropped, split at ';') gives its fields back, provided no field contains ';' or a line break |
| Csv.CondensedClock | timesheet.go:263-288 | the condensed block begins at "09:00" and its end reading shows the minutes of 09:00 plus the summed seconds, modulo a day |
| Csv.WriteEntries | timesheet.go:236-256 | the lines of one activity's entries: one extended line per entry, in order |
| Csv.DetailedProject | timesheet.go:235-257 | the extended lines of one project-day: each activity once, each activity's entries in order, one line per entry |
| Csv.CondensedLine | timesheet.go:259-295 | the condensed line of one project-day: the summed totals and the de-duplicated pieces of the entries in visit order |
| Csv.EntryOriginsLines | timesheet.go:236-255 | a project-day's entries give its extended lines, and their trace gives the entries back |
| Csv.EntryOriginsReach | timesheet.go:235-236 | every extended origin of a project-day walk names that day and reaches one of the project's entries |
| Csv.ExpandedEntries | timesheet.go:235-236 | the extended lines' entries are the blocks' entries, block after block, in order |
| Csv.ExpandedReach | timesheet.go:233-236 | every extended line of walks of their project groups comes from an entry of its group |
| Csv.ExpandedDays | timesheet.go:230-236 | the extended lines of one day's blocks are of that day |
| Csv.BlockLines | timesheet.go:235-295 | the lines of one block: one per entry of it (extended), or its single condensed line |
| Csv.DayStep | timesheet.go:233-296 | after one more project of the day, the blocks are walks of their projects, name each project written so far exactly once, and hold exactly those projects' entries of the day |
| Csv.BlockStep | timesheet.go:233-296 | appending one project's block and its lines keeps the day's invariant, in either mode |
| Csv.DayPairs | timesheet.go:233 | one day's blocks name each of that day's projects exactly once and nothing else |
| Csv.WriteProject | timesheet.go:233-296 | one project of the day appends exactly one block, of that day and project, to the blocks and that block's lines to the lines already written, which stay as they were; the block is a walk of the project's activities, each once, each activity's entries in order |
| Csv.WriteDay | timesheet.go:229-297 | one day's lines are the lines of its blocks, one per project of the day, each a walk of that project's activities (each once, entries in order), together holding exactly the day's entries; per entry (extended) or per block (condensed), under the day's formatted `Date` |
| Csv.OrderStep | timesheet.go:229 | lines written for the next date key come after those of earlier keys |
| Csv.FileStep | timesheet.go:229-298 | after one more day, the blocks name each (day, project) container of the days written so far exactly once and hold exactly those days' entries |
| Csv.WriteDate | timesheet.go:229-298 | one iteration of the loop over the sorted dates appends the blocks of that date and their lines to what is already written, which stays as it was, and keeps the file invariant |
| Csv.WriteCsv | timesheet.go:223-298 | the file is the header followed by the lines of the blocks, one block per (day, project) container, each once, in `dates` order; each block is a walk of its container's activities (each once, each activity's entries in order). Extended: one line per entry of each block, in order. Condensed: one line per block |
| Report.OnDayHas | timesheet.go:123-135 | every input entry is among the entries of its own day |
| Report.DayStartDate | timesheet.go:230 | the date column, formatted from the day container's `Date`, shows the entry's own calendar day (four-digit years) |
| Report.GroupOfProjectLeaves | timesheet.go:123-158 | a project-day container holds exactly that project's entries of that day, as a multiset |
| Report.EntryLocated | timesheet.go:123-158 | an entry found under a day and project begins that day and belongs to that project |
| Report.GroupPairs | timesheet.go:137-144 | the (day, project) containers are exactly the (day, project) pairs of the input |
| Report.EntryLine | timesheet.go:236-255 | every extended line is the line of an input entry: the first same-day entry's date, the entry's times and hours, the resolved project and activity names, its description and its amount |
| Report.GroupLine | timesheet.go:259-295 | every condensed line is the line of an input (day, project) pair, taken over a permutation of exactly that pair's entries |
| Report.ExtendedRows | timesheet.go:229-257 | the extended lines are the input entries' lines, one per visited entry, and their days are the entries' date keys |
| Report.CondensedRows | timesheet.go:258-296 | the condensed lines are the pair lines of the blocks written, each over exactly its pair's entries |
| Report.FlattenBuckets | timesheet.go:265-266 | walking a project container's activities in a given order yields those activities' input buckets joined in that order |
| Report.GroupWalk | timesheet.go:235-236 | a block's entries are its pair's activity buckets joined in its recorded order, which lists each of the pair's activities exactly once |
| Report.BlockWalks | timesheet.go:233-236 | every block written is its pair's activity buckets joined in one walk of the pair's activities |
| Report.BlockPairs | timesheet.go:233 | the blocks are exactly the input's (day, project) pairs, each once, so there are as many blocks as pairs |
| Report.PairWalksOf | timesheet.go:229-236 | the blocks the writer produces are one walk per input (day, project) pair, each pair once, day by day |
| Report.AscendingDays | timesheet.go:229 | following ascending date keys puts the lines in day order |
| Report.ExtendedLines | timesheet.go:223-257 | the extended file is the header followed by one line per input entry (each entry as often as fetched), day by day, block by block: each input (day, project) pair once, its activities one after the other, each once, each activity's entries in input order |
| Report.CondensedLines | timesheet.go:223-298 | the condensed file is the header followed by one line per input (day, project) pair, each pair once, day by day; each line is over the pair's activity buckets joined in a duplicate-free order listing exactly the pair's activities |
| Report.Report | timesheet.go:106-298 | the whole report on the fetched lists. The totals are the sums over the input; no lines are written without a CSV file; otherwise the file is `ExtendedFile` or `CondensedFile`, both over one block per input (day, project) pair, each the pair's activity buckets joined in one walk of its activities, days ascending |

## Left out

- The HTTP client, query building, bearer tokens and JSON decoding, including `KimaiTime.UnmarshalJSON` (`kimai/client.go`). The model starts from the decoded lists.
- `utils/json.go` is not part of this model (it only prints JSON).
- Flag parsing and the current-month / last-month range computation (timesheet.go:45-98). They depend on the clock and are bootstrap code.
- Console output: the emoji tree, the Start/Ende echo and the German-locale totals line with the `amount*1.19` gross figure (timesheet.go:173-192, 203-212). The totals those lines print are computed (`Totals.Sum`); their printing is not modelled.
- `os.Create`, `defer f.Close()` and `log.Fatal` (timesheet.go:214-221). The file is the sequence of lines written; a failure to create it is not modelled.
- Floating point: rates are whole cents and durations whole seconds, so sums are exact. The running `hours` total is kept in seconds rather than as a sum of float quotients.
- Csv.Hours: rounds the exact seconds/36 ratio with halves away from zero, while Go's `%.2f` rounds the binary float, so exact ties may print differently.
- `time.Now()` and the run date (timesheet.go:262-263). Only the "15:04" clock of the 09:00 block is printed, so the block is modelled as seconds after midnight. A daylight-saving change on the run date, which would shift the end reading by an hour, is not modelled.
- Fixed-width integers: Dafny's integers are unbounded. An int64 or `time.Duration` overflow of very large sums is not modelled.
- `slices.Sort` sorts in place with pdqsort. The model uses an insertion sort on a sequence. `KeySort.SortedUnique` shows that any sort gives the same result.
- Totals.Sum: requires `dates` to list the keys of the map once each, which `Grouping.Group` guarantees and `Report.Report` passes on.
- Csv.WriteCsv: carries the same requirement on `dates` as `Totals.Sum`.
- Report.DayStartDate: requires four-digit years (0 to 9999). For other years, `Format("2006-01-02")` pads differently, and the model does not show that date keys and calendar days agree there.
- Csv.RowFields: holds only for fields without ';' or line breaks. The program writes fields unquoted, so a description or name containing ';' shifts the columns of that line.
- Report.ExtendedLines: the order of the projects within a day and of the activities within a project follows Go's map iteration order, which is unspecified. The contract allows any such order, each project and activity once, and fixes everything else.
- Report.CondensedLines: the order of the pieces in the description column follows the map's activity visit order, which Go leaves unspecified. The contract fixes the entries of each line as the pair's activity buckets joined in the activity order recorded in the line's `Origin`, which may be any duplicate-free listing of the pair's activities; the set of pieces does not depend on it (`Condense.PiecesOfAnyVisit`).
- `KimaiTime` validity (calendar ranges) is not imposed on inputs; only the date-key lemmas need four-digit years.
