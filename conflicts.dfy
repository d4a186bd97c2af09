/** Scheduling-conflict detection (`detectTaskConflicts` in
    src/utils/calendarUtils.ts): the open tasks are sorted by start instant
    with a stable sort, and each task is compared with every task after it
    in that order. */
module Conflicts {
  import opened Wrappers
  import opened Types
  import opened Seqs

  /** The instant `${date}T${time}`, in minutes since the epoch. */
  function Instant(d: Day, t: Minute): int {
    d * 1440 + t
  }

  function StartOf(t: Task): int { Instant(t.date, t.startTime) }

  function EndOf(t: Task): int { Instant(t.date, t.endTime) }

  predicate IsOpen(t: Task) { !t.completed }

  /** The overlap test, with `isAfter`/`isBefore` being strict comparisons:
      the compared task starts inside the current one, or ends inside it, or
      encloses it. */
  predicate Overlaps(current: Task, compare: Task) {
    var s, e := StartOf(current), EndOf(current);
    var cs, ce := StartOf(compare), EndOf(compare);
    (cs > s && cs < e) || (ce > s && ce < e) || (cs < s && ce > e)
  }

  predicate SortedByStart(s: seq<Task>) {
    forall i, j :: 0 <= i < j < |s| ==> StartOf(s[i]) <= StartOf(s[j])
  }

  /** A task starting no later than every task of a sorted sequence can go in front. */
  lemma ConsSorted(x: Task, s: seq<Task>)
    requires SortedByStart(s)
    requires forall y :: y in s ==> StartOf(x) <= StartOf(y)
    ensures SortedByStart([x] + s)
  {
    var r := [x] + s;
    forall i, j | 0 <= i < j < |r| ensures StartOf(r[i]) <= StartOf(r[j]) {
      assert r[j] == s[j - 1];
      if i > 0 {
        assert r[i] == s[i - 1];
      } else {
        assert s[j - 1] in s;
      }
    }
  }

  /** In a sorted sequence the first task starts no later than any other. */
  lemma SortedHead(s: seq<Task>)
    requires SortedByStart(s) && s != []
    ensures forall y :: y in s ==> StartOf(s[0]) <= StartOf(y)
  {
    forall y | y in s ensures StartOf(s[0]) <= StartOf(y) {
      var k :| 0 <= k < |s| && s[k] == y;
    }
  }

  /** Inserts `x` before the first element that does not start earlier. */
  function InsertByStart(x: Task, s: seq<Task>): (r: seq<Task>)
    requires SortedByStart(s)
    ensures SortedByStart(r) && multiset(r) == multiset(s) + multiset{x}
  {
    if s == [] || StartOf(x) <= StartOf(s[0]) then
      InsertedFront(x, s);
      [x] + s
    else
      var rest := InsertByStart(x, s[1..]);
      InsertedAbove(x, s, rest);
      assert s == [s[0]] + s[1..];
      [s[0]] + rest
  }

  /** The base case of the insertion: `x` goes in front. */
  lemma InsertedFront(x: Task, s: seq<Task>)
    requires SortedByStart(s) && (s == [] || StartOf(x) <= StartOf(s[0]))
    ensures SortedByStart([x] + s)
  {
    if s != [] {
      SortedHead(s);
    }
    ConsSorted(x, s);
  }

  /** The recursive case of the insertion: the head of `s` stays in front. */
  lemma InsertedAbove(x: Task, s: seq<Task>, rest: seq<Task>)
    requires SortedByStart(s) && s != [] && StartOf(s[0]) < StartOf(x)
    requires SortedByStart(rest) && multiset(rest) == multiset(s[1..]) + multiset{x}
    ensures SortedByStart([s[0]] + rest)
  {
    SortedHead(s);
    forall y | y in rest ensures StartOf(s[0]) <= StartOf(y) {
      assert y in multiset(rest);
      if y != x {
        assert y in multiset(s[1..]);
        assert y in s[1..];
        assert y in s;
      }
    }
    ConsSorted(s[0], rest);
  }

  /** `tasks.sort((a, b) => start(a) - start(b))`: a stable sort by start. */
  function SortByStart(s: seq<Task>): (r: seq<Task>)
    ensures SortedByStart(r) && multiset(r) == multiset(s)
  {
    if s == [] then []
    else
      assert s == [s[0]] + s[1..];
      InsertByStart(s[0], SortByStart(s[1..]))
  }

  function StartsAt(k: int): Task -> bool {
    t => StartOf(t) == k
  }

  /** Inserting `x` puts it in front of the tasks starting at the same instant. */
  lemma {:induction false} InsertStable(x: Task, s: seq<Task>, k: int)
    requires SortedByStart(s)
    ensures Filter(InsertByStart(x, s), StartsAt(k)) == (if StartOf(x) == k then [x] else []) + Filter(s, StartsAt(k))
  {
    var p := StartsAt(k);
    var r := InsertByStart(x, s);
    if s == [] || StartOf(x) <= StartOf(s[0]) {
      assert r[0] == x && r[1..] == s;
    } else {
      var rest := InsertByStart(x, s[1..]);
      assert r[0] == s[0] && r[1..] == rest;
      InsertStable(x, s[1..], k);
      var head := if p(s[0]) then [s[0]] else [];
      assert Filter(r, p) == head + Filter(rest, p);
      assert Filter(s, p) == head + Filter(s[1..], p);
      if p(s[0]) {
        assert !p(x);
        assert Filter(rest, p) == Filter(s[1..], p);
      } else {
        assert head + Filter(rest, p) == Filter(rest, p);
      }
    }
  }

  /** The sort is stable: tasks that start at the same instant keep their
      input order. */
  lemma {:induction false} SortStable(s: seq<Task>, k: int)
    ensures Filter(SortByStart(s), StartsAt(k)) == Filter(s, StartsAt(k))
  {
    if s != [] {
      SortStable(s[1..], k);
      InsertStable(s[0], SortByStart(s[1..]), k);
    }
  }

  /** The open tasks in start order, as the detector scans them. */
  function Scanned(tasks: seq<Task>): seq<Task> {
    SortByStart(Filter(tasks, IsOpen))
  }

  /** The ids of the tasks after position `i` and before `j` that overlap task `i`. */
  function PartnersUpTo(s: seq<Task>, i: nat, j: nat): seq<string>
    requires i < |s| && j <= |s|
    decreases j
  {
    if j <= i + 1 then []
    else PartnersUpTo(s, i, j - 1) + (if Overlaps(s[i], s[j - 1]) then [s[j - 1].id] else [])
  }

  function Partners(s: seq<Task>, i: nat): seq<string>
    requires i < |s|
  {
    PartnersUpTo(s, i, |s|)
  }

  const Suggestion: string := "Consider rescheduling or adjusting time for better productivity"

  /** The report for task `i`, emitted only when it has a partner. */
  function RecordFor(s: seq<Task>, i: nat): seq<ConflictDetection>
    requires i < |s|
  {
    var p := Partners(s, i);
    if |p| > 0 then [ConflictDetection(s[i].id, p, if |p| > 1 then Major else Minor, Some(Suggestion))]
    else []
  }

  function RecordsUpTo(s: seq<Task>, n: nat): seq<ConflictDetection>
    requires n <= |s|
  {
    if n == 0 then [] else RecordsUpTo(s, n - 1) + RecordFor(s, n - 1)
  }

  /** The result of `detectTaskConflicts(tasks)`. */
  function ConflictsOf(tasks: seq<Task>): seq<ConflictDetection> {
    var s := Scanned(tasks);
    RecordsUpTo(s, |s|)
  }

  /** `detectTaskConflicts(tasks)`: the triangular scan over the sorted open tasks. */
  method DetectTaskConflicts(tasks: seq<Task>) returns (conflicts: seq<ConflictDetection>)
    ensures conflicts == ConflictsOf(tasks)
  {
    var sorted := SortByStart(Filter(tasks, IsOpen));
    conflicts := [];
    var i := 0;
    while i < |sorted|
      invariant 0 <= i <= |sorted|
      invariant conflicts == RecordsUpTo(sorted, i)
    {
      var partners := ScanPartners(sorted, i);
      if |partners| > 0 {
        var severity := if |partners| > 1 then Major else Minor;
        conflicts := conflicts + [ConflictDetection(sorted[i].id, partners, severity, Some(Suggestion))];
      }
      assert RecordsUpTo(sorted, i + 1) == RecordsUpTo(sorted, i) + RecordFor(sorted, i);
      i := i + 1;
    }
  }

  /** The inner loop of the scan: the ids of the later tasks overlapping task `i`. */
  method ScanPartners(sorted: seq<Task>, i: nat) returns (partners: seq<string>)
    requires i < |sorted|
    ensures partners == Partners(sorted, i)
  {
    partners := [];
    var j := i + 1;
    while j < |sorted|
      invariant i + 1 <= j <= |sorted|
      invariant partners == PartnersUpTo(sorted, i, j)
    {
      if Overlaps(sorted[i], sorted[j]) {
        partners := partners + [sorted[j].id];
      }
      j := j + 1;
    }
  }

  /** A partner of task `i` is the id of a strictly later task in the scan
      order that overlaps it, and every such task is named. */
  lemma {:induction false} PartnersExactly(s: seq<Task>, i: nat, j: nat, x: string)
    requires i < |s| && j <= |s|
    ensures x in PartnersUpTo(s, i, j) <==> exists k :: i < k < j && Overlaps(s[i], s[k]) && s[k].id == x
    decreases j
  {
    if j > i + 1 {
      PartnersExactly(s, i, j - 1, x);
    }
  }

  function OverlapsWith(current: Task): Task -> bool {
    t => Overlaps(current, t)
  }

  /** The partners of task `i` are the ids of the later tasks, in scan
      order, that overlap it: one entry per such task. */
  lemma {:induction false} PartnersAsFilter(s: seq<Task>, i: nat, j: nat)
    requires i < j <= |s|
    ensures PartnersUpTo(s, i, j) == Ids(Filter(s[i + 1..j], OverlapsWith(s[i])))
    decreases j
  {
    if j > i + 1 {
      PartnersAsFilter(s, i, j - 1);
      var p := OverlapsWith(s[i]);
      var u, last := s[i + 1..j - 1], s[j - 1];
      assert s[i + 1..j] == u + [last];
      FilterAppend(u, [last], p);
      var b := Filter([last], p);
      assert [last][1..] == [];
      assert b == if p(last) then [last] else [];
      IdsAppend(Filter(u, p), b);
      assert Ids(b) == if Overlaps(s[i], last) then [last.id] else [];
    } else {
      assert s[i + 1..j] == [];
    }
  }

  /** Each report belongs to one scanned task: it names that task, lists its
      partners, is `major` exactly when there is more than one, and a task
      without partners gets no report. */
  lemma {:induction false} RecordsExactly(s: seq<Task>, n: nat, r: ConflictDetection)
    requires n <= |s|
    ensures r in RecordsUpTo(s, n) <==>
      exists i :: 0 <= i < n && |Partners(s, i)| > 0 &&
        r == ConflictDetection(s[i].id, Partners(s, i), if |Partners(s, i)| > 1 then Major else Minor, Some(Suggestion))
    decreases n
  {
    if n > 0 {
      RecordsExactly(s, n - 1, r);
    }
  }

  /** Every id in a report, as the reported task or as a partner, is the id
      of an open input task; so with distinct ids no completed task appears. */
  lemma ReportedIdsAreOpen(tasks: seq<Task>, r: ConflictDetection)
    requires r in ConflictsOf(tasks)
    ensures exists t :: t in tasks && IsOpen(t) && t.id == r.taskId
    ensures forall x :: x in r.conflictingTasks ==> exists t :: t in tasks && IsOpen(t) && t.id == x
  {
    var s := Scanned(tasks);
    RecordsExactly(s, |s|, r);
    var i :| 0 <= i < |s| && |Partners(s, i)| > 0 &&
      r == ConflictDetection(s[i].id, Partners(s, i), if |Partners(s, i)| > 1 then Major else Minor, Some(Suggestion));
    assert s[i] in multiset(s);
    forall x | x in r.conflictingTasks
      ensures exists t :: t in tasks && IsOpen(t) && t.id == x
    {
      PartnersExactly(s, i, |s|, x);
      var k :| i < k < |s| && Overlaps(s[i], s[k]) && s[k].id == x;
      assert s[k] in multiset(s);
    }
  }

  /** With distinct task ids, a completed task is never reported, neither as
      the reported task nor as a partner. */
  lemma CompletedNeverReported(tasks: seq<Task>, t: Task, r: ConflictDetection)
    requires DistinctIds(tasks) && t in tasks && t.completed
    requires r in ConflictsOf(tasks)
    ensures r.taskId != t.id && t.id !in r.conflictingTasks
  {
    ReportedIdsAreOpen(tasks, r);
    forall u | u in tasks && u.id == t.id ensures u == t {
      var a :| 0 <= a < |tasks| && tasks[a] == u;
      var b :| 0 <= b < |tasks| && tasks[b] == t;
      assert a == b;
    }
  }

  /** With distinct ids no task lists itself: partners come strictly later
      in the scan, and the scan holds each open task once. */
  lemma NoSelfConflict(tasks: seq<Task>, r: ConflictDetection)
    requires DistinctIds(tasks)
    requires r in ConflictsOf(tasks)
    ensures r.taskId !in r.conflictingTasks
  {
    var s := Scanned(tasks);
    RecordsExactly(s, |s|, r);
    var i :| 0 <= i < |s| && |Partners(s, i)| > 0 &&
      r == ConflictDetection(s[i].id, Partners(s, i), if |Partners(s, i)| > 1 then Major else Minor, Some(Suggestion));
    if r.taskId in r.conflictingTasks {
      PartnersExactly(s, i, |s|, r.taskId);
      var k :| i < k < |s| && Overlaps(s[i], s[k]) && s[k].id == r.taskId;
      ScannedDistinct(tasks);
      assert false;
    }
  }

  lemma {:induction false} FilterDistinct(s: seq<Task>)
    requires DistinctIds(s)
    ensures DistinctIds(Filter(s, IsOpen))
  {
    if s != [] {
      FilterDistinct(s[1..]);
      var rest := Filter(s[1..], IsOpen);
      forall u | u in rest ensures u.id != s[0].id {
        var k :| 0 <= k < |s[1..]| && s[1..][k] == u;
        assert s[k + 1] == u;
      }
    }
  }

  lemma {:induction false} InsertDistinct(x: Task, s: seq<Task>)
    requires SortedByStart(s) && DistinctIds(s)
    requires forall u :: u in s ==> u.id != x.id
    ensures DistinctIds(InsertByStart(x, s))
  {
    if !(s == [] || StartOf(x) <= StartOf(s[0])) {
      InsertDistinct(x, s[1..]);
      var rest := InsertByStart(x, s[1..]);
      forall u | u in rest ensures u.id != s[0].id {
        assert u in multiset(rest);
        if u != x {
          assert u in multiset(s[1..]);
          var k :| 0 <= k < |s[1..]| && s[1..][k] == u;
          assert s[k + 1] == u;
        }
      }
    }
  }

  lemma {:induction false} SortDistinct(s: seq<Task>)
    requires DistinctIds(s)
    ensures DistinctIds(SortByStart(s))
  {
    if s != [] {
      SortDistinct(s[1..]);
      forall u | u in SortByStart(s[1..]) ensures u.id != s[0].id {
        assert u in multiset(SortByStart(s[1..]));
        var k :| 0 <= k < |s[1..]| && s[1..][k] == u;
        assert s[k + 1] == u;
      }
      InsertDistinct(s[0], SortByStart(s[1..]));
    }
  }

  lemma ScannedDistinct(tasks: seq<Task>)
    requires DistinctIds(tasks)
    ensures DistinctIds(Scanned(tasks))
  {
    FilterDistinct(tasks);
    SortDistinct(Filter(tasks, IsOpen));
  }

  /** In scan order a later task never starts before the current one, so the
      third disjunct of the overlap test never holds there. */
  lemma EnclosingNeverFires(s: seq<Task>, i: nat, j: nat)
    requires SortedByStart(s) && i < j < |s|
    ensures Overlaps(s[i], s[j]) <==>
      (StartOf(s[i]) < StartOf(s[j]) < EndOf(s[i])) || (StartOf(s[i]) < EndOf(s[j]) < EndOf(s[i]))
  {
  }

  /** Intervals that only touch never conflict, in either order, provided
      neither ends before it starts. */
  lemma TouchingNeverOverlaps(a: Task, b: Task)
    requires StartOf(a) <= EndOf(a) && StartOf(b) <= EndOf(b)
    requires EndOf(a) == StartOf(b)
    ensures !Overlaps(a, b) && !Overlaps(b, a)
  {
  }

  /** Identical intervals never conflict. */
  lemma IdenticalNeverOverlaps(a: Task, b: Task)
    requires StartOf(a) == StartOf(b) && EndOf(a) == EndOf(b)
    ensures !Overlaps(a, b)
  {
  }

  /** With equal starts, a later-scanned task that ends no earlier is not a
      partner. */
  lemma SameStartLaterEndNeverOverlaps(a: Task, b: Task)
    requires StartOf(a) == StartOf(b) && EndOf(b) >= EndOf(a)
    ensures !Overlaps(a, b)
  {
  }

  /** Tasks on different dates never conflict when their times are times of day. */
  lemma DifferentDatesNeverOverlap(a: Task, b: Task)
    requires IsTimeOfDay(a.startTime) && IsTimeOfDay(a.endTime)
    requires IsTimeOfDay(b.startTime) && IsTimeOfDay(b.endTime)
    requires a.date != b.date
    ensures !Overlaps(a, b)
  {
    if a.date < b.date {
      assert b.date * 1440 >= a.date * 1440 + 1440;
    } else {
      assert a.date * 1440 >= b.date * 1440 + 1440;
    }
  }

  function Sample(id: string, end: Minute): Task {
    Task(id, id, None, 0, 600, end, false, Medium, Other, "personal", [], [], [], [], None, None)
  }

  /** Two tasks with the same start, given in order, stay in that order. */
  lemma SortPair(a: Task, b: Task)
    requires StartOf(a) == StartOf(b)
    ensures SortByStart([a, b]) == [a, b]
  {
    assert [a, b][1..] == [b];
    assert [b][1..] == [];
    assert SortByStart([b]) == [b];
  }

  lemma OpenPair(a: Task, b: Task)
    requires IsOpen(a) && IsOpen(b)
    ensures Scanned([a, b]) == SortByStart([a, b])
  {
    FilterKeepsAll([a, b], IsOpen);
  }

  /** Two open tasks with the same start: the first is reported, with the
      second as its one partner, exactly when the second overlaps it. */
  lemma PairScan(a: Task, b: Task)
    requires IsOpen(a) && IsOpen(b) && StartOf(a) == StartOf(b)
    ensures ConflictsOf([a, b]) == if Overlaps(a, b) then [ConflictDetection(a.id, [b.id], Minor, Some(Suggestion))] else []
  {
    OpenPair(a, b);
    SortPair(a, b);
    var s := [a, b];
    assert Partners(s, 1) == [];
    assert PartnersUpTo(s, 0, 1) == [];
    assert Partners(s, 0) == if Overlaps(a, b) then [b.id] else [];
    assert RecordsUpTo(s, 2) == RecordsUpTo(s, 1) + RecordFor(s, 1);
    assert RecordsUpTo(s, 1) == RecordFor(s, 0);
  }

  /** Equal starts make the outcome depend on input order: task A from 10:00
      to 12:00 and task B from 10:00 to 11:00 are reported when A comes first
      and not at all when B comes first. The relation is not symmetric. */
  lemma OrderDependence()
    ensures |ConflictsOf([Sample("a", 720), Sample("b", 660)])| == 1
    ensures ConflictsOf([Sample("b", 660), Sample("a", 720)]) == []
  {
    var a, b := Sample("a", 720), Sample("b", 660);
    assert Overlaps(a, b) && !Overlaps(b, a);
    PairScan(a, b);
    PairScan(b, a);
  }
}
