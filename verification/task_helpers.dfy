/**
 * The task utilities: overdue test, due-date priority, sorting, filtering, grouping and
 * progress. `groupTasksByStatus`, `calculateProgress` and `isTaskOverdue` compare against
 * the display strings of `TASK_STATUS`; `sortTasks` uses the board keys instead.
 * Times are milliseconds and the current instant is the parameter `now`.
 */
module TaskHelpers {
  import opened Wrappers
  import opened Strings
  import opened Seqs
  import opened Numbers
  import opened Tasks

  /** `TASK_STATUS`: display strings, not the board's status keys. */
  const TODO := "To Do"
  const IN_PROGRESS := "In Progress"
  const COMPLETED := "Completed"

  /** Milliseconds in a day: `1000 * 60 * 60 * 24`. */
  const DAY_MS := 86400000

  // ---------------------------------------------------------------- overdue and priority

  /** `isTaskOverdue`: a due date in the past and a status other than `'Completed'`. */
  predicate IsTaskOverdue(task: Task, now: int) {
    task.dueDate.Some? && task.status != COMPLETED && task.dueDate.value < now
  }

  datatype Priority = Overdue | Urgent | High | Normal

  /** `Math.ceil((due - now) / DAY_MS)`: whole days until the due date, rounded up. */
  function DaysUntilDue(due: int, now: int): (d: int)
    ensures DAY_MS * (d - 1) < due - now <= DAY_MS * d
  {
    CeilDiv(due - now, DAY_MS)
  }

  /** `getTaskPriority`. */
  function GetTaskPriority(task: Task, now: int): Priority {
    if task.dueDate.None? then Normal
    else
      var d := DaysUntilDue(task.dueDate.value, now);
      if d < 0 then Overdue
      else if d <= 1 then Urgent
      else if d <= 3 then High
      else Normal
  }

  /**
   * The priority bands, stated on the time left `due - now` in milliseconds:
   * overdue once a whole day has passed, urgent within one day either side of the
   * due date, high within three days, normal beyond that or without a due date.
   */
  lemma PriorityBands(task: Task, now: int)
    ensures task.dueDate.None? ==> GetTaskPriority(task, now) == Normal
    ensures task.dueDate.Some? ==>
      var left := task.dueDate.value - now;
      && (GetTaskPriority(task, now) == Overdue <==> left <= -DAY_MS)
      && (GetTaskPriority(task, now) == Urgent <==> -DAY_MS < left <= DAY_MS)
      && (GetTaskPriority(task, now) == High <==> DAY_MS < left <= 3 * DAY_MS)
      && (GetTaskPriority(task, now) == Normal <==> 3 * DAY_MS < left)
  {
    if task.dueDate.Some? {
      var d := DaysUntilDue(task.dueDate.value, now);
      assert d < 0 <==> d <= -1;
    }
  }

  /**
   * An overdue task (by `isTaskOverdue`) is at worst one day late, so its priority is
   * `overdue` or `urgent`; conversely an `overdue` priority on an unfinished task means
   * `isTaskOverdue` holds.
   */
  lemma OverdueAgreesWithPriority(task: Task, now: int)
    ensures IsTaskOverdue(task, now) ==> GetTaskPriority(task, now) in {Overdue, Urgent}
    ensures GetTaskPriority(task, now) == Overdue && task.status != COMPLETED ==> IsTaskOverdue(task, now)
  {
    PriorityBands(task, now);
  }

  // ---------------------------------------------------------------- sorting

  datatype SortKey = ByDueDate | ByTitle | ByStatus | ByPriority | ByCreatedAt

  /** The `switch (sortBy)` of `sortTasks`; the default (and `'createdAt'`) is newest first. */
  function SortKeyOf(sortBy: string): (k: SortKey)
    ensures k == ByDueDate <==> sortBy == "dueDate"
    ensures k == ByTitle <==> sortBy == "title"
    ensures k == ByStatus <==> sortBy == "status"
    ensures k == ByPriority <==> sortBy == "priority"
    ensures sortBy == "createdAt" ==> k == ByCreatedAt
  {
    if sortBy == "dueDate" then ByDueDate
    else if sortBy == "title" then ByTitle
    else if sortBy == "status" then ByStatus
    else if sortBy == "priority" then ByPriority
    else ByCreatedAt
  }

  /** `statusOrder`: defined only for the board keys (undefined otherwise). */
  function StatusRank(status: string): Option<int> {
    if status == "todo" then Some(0)
    else if status == "inprogress" then Some(1)
    else if status == "completed" then Some(2)
    else None
  }

  /** `priorityOrder`. */
  function PriorityRank(p: Priority): int {
    match p
    case Overdue => 0
    case Urgent => 1
    case High => 2
    case Normal => 3
  }

  /**
   * The comparator handed to `Array.prototype.sort`. For `ByStatus`, a status outside
   * `statusOrder` gives `NaN`, which `sort` treats as 0.
   */
  function Compare(key: SortKey, now: int, a: Task, b: Task): int {
    match key
    case ByDueDate =>
      if a.dueDate.None? then 1
      else if b.dueDate.None? then -1
      else a.dueDate.value - b.dueDate.value
    case ByTitle => LocaleCompare(a.title, b.title)
    case ByStatus =>
      if StatusRank(a.status).Some? && StatusRank(b.status).Some?
      then StatusRank(a.status).value - StatusRank(b.status).value
      else 0
    case ByPriority => PriorityRank(GetTaskPriority(a, now)) - PriorityRank(GetTaskPriority(b, now))
    case ByCreatedAt => b.createdAt - a.createdAt
  }

  /** `a` must come before `b`: the comparator is negative. */
  predicate Less(key: SortKey, now: int, a: Task, b: Task) {
    Compare(key, now, a, b) < 0
  }

  lemma LessIrreflexive(key: SortKey, now: int, a: Task)
    ensures !Less(key, now, a, a)
  {
    if key == ByTitle { LexLessIrreflexive(a.title); }
  }

  lemma LessTransitive(key: SortKey, now: int, a: Task, b: Task, c: Task)
    requires Less(key, now, a, b) && Less(key, now, b, c)
    ensures Less(key, now, a, c)
  {
    if key == ByTitle { LexLessTransitive(a.title, b.title, c.title); }
  }

  /** No element is placed after one that the comparator puts strictly after it. */
  ghost predicate Sorted(key: SortKey, now: int, s: seq<Task>) {
    forall i, j :: 0 <= i < j < |s| ==> !Less(key, now, s[j], s[i])
  }

  /** Places `x` after every element of `s` that it does not strictly precede. */
  function Insert(key: SortKey, now: int, x: Task, s: seq<Task>): (r: seq<Task>)
    ensures multiset(r) == multiset(s) + multiset{x}
    ensures |r| == |s| + 1
  {
    if s == [] then [x]
    else if Less(key, now, x, s[0]) then [x] + s
    else
      assert s == [s[0]] + s[1..];
      [s[0]] + Insert(key, now, x, s[1..])
  }

  /**
   * `sortTasks(tasks, sortBy)`: a sorted copy, the input left as it is. `Array.prototype.sort`
   * is stable; this is an insertion sort driven by the same comparator, stable by
   * `SortTasksStable`.
   */
  function SortTasks(tasks: seq<Task>, key: SortKey, now: int): (r: seq<Task>)
    ensures multiset(r) == multiset(tasks)
    ensures |r| == |tasks|
  {
    if tasks == [] then []
    else
      var init := tasks[..|tasks| - 1];
      assert tasks == init + [tasks[|tasks| - 1]];
      Insert(key, now, tasks[|tasks| - 1], SortTasks(init, key, now))
  }

  /** `x` put in front of a sorted `s` whose head it precedes keeps it sorted. */
  lemma InsertFrontSorted(key: SortKey, now: int, x: Task, s: seq<Task>)
    requires Sorted(key, now, s) && s != [] && Less(key, now, x, s[0])
    ensures Sorted(key, now, [x] + s)
  {
    var r := [x] + s;
    forall i, j | 0 <= i < j < |r| ensures !Less(key, now, r[j], r[i]) {
      if i == 0 {
        if Less(key, now, r[j], x) {
          LessTransitive(key, now, r[j], x, s[0]);
          if j == 1 { LessIrreflexive(key, now, s[0]); }
          assert false;
        }
      } else {
        assert r[i] == s[i - 1] && r[j] == s[j - 1];
      }
    }
  }

  /** The head of a sorted `s` that `x` does not precede stays first before a sorted `tail`. */
  lemma ConsSorted(key: SortKey, now: int, x: Task, s: seq<Task>, tail: seq<Task>)
    requires Sorted(key, now, s) && s != [] && !Less(key, now, x, s[0])
    requires Sorted(key, now, tail) && multiset(tail) == multiset(s[1..]) + multiset{x}
    ensures Sorted(key, now, [s[0]] + tail)
  {
    var r := [s[0]] + tail;
    forall i, j | 0 <= i < j < |r| ensures !Less(key, now, r[j], r[i]) {
      if i == 0 {
        var y := r[j];
        assert y in multiset(tail);
        if y != x {
          assert y in multiset(s[1..]);
          var k :| 0 <= k < |s[1..]| && s[1..][k] == y;
          assert s[k + 1] == y;
        }
      } else {
        assert r[i] == tail[i - 1] && r[j] == tail[j - 1];
      }
    }
  }

  lemma {:induction false} InsertSorted(key: SortKey, now: int, x: Task, s: seq<Task>)
    requires Sorted(key, now, s)
    ensures Sorted(key, now, Insert(key, now, x, s))
  {
    if s == [] {
    } else if Less(key, now, x, s[0]) {
      InsertFrontSorted(key, now, x, s);
    } else {
      assert Sorted(key, now, s[1..]) by {
        forall i, j | 0 <= i < j < |s[1..]| ensures !Less(key, now, s[1..][j], s[1..][i]) {
          assert s[1..][i] == s[i + 1] && s[1..][j] == s[j + 1];
        }
      }
      InsertSorted(key, now, x, s[1..]);
      ConsSorted(key, now, x, s, Insert(key, now, x, s[1..]));
    }
  }

  lemma {:induction false} SortTasksSorted(tasks: seq<Task>, key: SortKey, now: int)
    ensures Sorted(key, now, SortTasks(tasks, key, now))
  {
    if tasks != [] {
      var init := tasks[..|tasks| - 1];
      SortTasksSorted(init, key, now);
      InsertSorted(key, now, tasks[|tasks| - 1], SortTasks(init, key, now));
    }
  }

  /** Dated tasks come first, in ascending due date; undated tasks come last. */
  ghost predicate DueDateAscending(s: seq<Task>) {
    forall i, j :: 0 <= i < j < |s| && s[j].dueDate.Some? ==>
      s[i].dueDate.Some? && s[i].dueDate.value <= s[j].dueDate.value
  }

  /** Titles ascend in `localeCompare` order. */
  ghost predicate TitleAscending(s: seq<Task>) {
    forall i, j :: 0 <= i < j < |s| ==> !LexLess(s[j].title, s[i].title)
  }

  /** Every task has one of the keys of `statusOrder`, so the status comparator never gives `NaN`. */
  predicate KnownStatuses(s: seq<Task>) {
    forall t :: t in s ==> StatusRank(t.status).Some?
  }

  /** Tasks with a known status go `todo`, `inprogress`, `completed`. */
  ghost predicate StatusAscending(s: seq<Task>) {
    forall i, j :: 0 <= i < j < |s| && StatusRank(s[i].status).Some? && StatusRank(s[j].status).Some? ==>
      StatusRank(s[i].status).value <= StatusRank(s[j].status).value
  }

  /** The most pressing priority comes first. */
  ghost predicate PriorityAscending(s: seq<Task>, now: int) {
    forall i, j :: 0 <= i < j < |s| ==>
      PriorityRank(GetTaskPriority(s[i], now)) <= PriorityRank(GetTaskPriority(s[j], now))
  }

  /** The most recently created task comes first. */
  ghost predicate NewestFirst(s: seq<Task>) {
    forall i, j :: 0 <= i < j < |s| ==> s[i].createdAt >= s[j].createdAt
  }

  /**
   * What each key orders by: due date ascending with undated tasks last, title ascending,
   * board status todo before inprogress before completed, priority most pressing first,
   * newest `createdAt` first. The status order is stated only when every status is a key:
   * one other status makes the comparator inconsistent, and the whole order is then the
   * engine's choice.
   */
  lemma SortTasksOrder(tasks: seq<Task>, key: SortKey, now: int)
    ensures key == ByDueDate ==> DueDateAscending(SortTasks(tasks, key, now))
    ensures key == ByTitle ==> TitleAscending(SortTasks(tasks, key, now))
    ensures key == ByStatus && KnownStatuses(tasks) ==> StatusAscending(SortTasks(tasks, key, now))
    ensures key == ByPriority ==> PriorityAscending(SortTasks(tasks, key, now), now)
    ensures key == ByCreatedAt ==> NewestFirst(SortTasks(tasks, key, now))
  {
    SortTasksSorted(tasks, key, now);
  }

  /**
   * `sortTasks(tasks, sortBy)` by its label: each of the four labels sorts by its own
   * comparator, and `'createdAt'` (the default argument) as well as any other label sorts
   * newest first.
   */
  lemma SortByLabelOrder(tasks: seq<Task>, sortBy: string, now: int)
    ensures sortBy == "dueDate" ==> DueDateAscending(SortTasks(tasks, SortKeyOf(sortBy), now))
    ensures sortBy == "title" ==> TitleAscending(SortTasks(tasks, SortKeyOf(sortBy), now))
    ensures sortBy == "status" && KnownStatuses(tasks) ==> StatusAscending(SortTasks(tasks, SortKeyOf(sortBy), now))
    ensures sortBy == "priority" ==> PriorityAscending(SortTasks(tasks, SortKeyOf(sortBy), now), now)
    ensures sortBy != "dueDate" && sortBy != "title" && sortBy != "status" && sortBy != "priority" ==>
      NewestFirst(SortTasks(tasks, SortKeyOf(sortBy), now))
  {
    SortTasksOrder(tasks, SortKeyOf(sortBy), now);
  }

  /** Sorting leaves nothing out and adds nothing: every task appears as often as before. */
  lemma SortTasksPermutes(tasks: seq<Task>, key: SortKey, now: int)
    ensures forall t :: t in tasks <==> t in SortTasks(tasks, key, now)
  {
    var r := SortTasks(tasks, key, now);
    assert multiset(r) == multiset(tasks);
    forall t ensures t in tasks <==> t in r {
      assert t in tasks <==> t in multiset(tasks);
      assert t in r <==> t in multiset(r);
    }
  }

  /** The comparator cannot put either of `a` and `b` before the other. */
  predicate Tied(key: SortKey, now: int, a: Task, b: Task) {
    !Less(key, now, a, b) && !Less(key, now, b, a)
  }

  /** The tasks tied with `t`. */
  function TiedWith(key: SortKey, now: int, t: Task): Task -> bool {
    u => Tied(key, now, u, t)
  }

  /**
   * Where `a` goes before `c`, any `b` goes after `a` or before `c`: every comparator is a
   * strict weak order, the status one as long as all three statuses are keys.
   */
  lemma LessSplits(key: SortKey, now: int, a: Task, b: Task, c: Task)
    requires key == ByStatus ==> KnownStatuses([a, b, c])
    requires Less(key, now, a, c)
    ensures Less(key, now, a, b) || Less(key, now, b, c)
  {
    if key == ByStatus {
      assert a in [a, b, c] && b in [a, b, c] && c in [a, b, c];
    } else if key == ByTitle {
      LexLessTrichotomy(a.title, b.title);
      if LexLess(b.title, a.title) { LexLessTransitive(b.title, a.title, c.title); }
    }
  }

  /** A task tied with `t` that goes before the head of a sorted `s` is tied with nothing in `s`. */
  lemma AfterSmallerNotTied(key: SortKey, now: int, x: Task, s: seq<Task>, t: Task, u: Task)
    requires Sorted(key, now, s) && u in s
    requires key == ByStatus ==> KnownStatuses(s) && KnownStatuses([x, t])
    requires Tied(key, now, x, t) && Less(key, now, x, s[0])
    ensures !Tied(key, now, u, t)
  {
    if key == ByStatus {
      assert x in [x, t] && t in [x, t] && s[0] in s;
    }
    LessSplits(key, now, x, t, s[0]);
    var m :| 0 <= m < |s| && s[m] == u;
    if m > 0 {
      assert !Less(key, now, s[m], s[0]);
      LessSplits(key, now, t, u, s[0]);
    }
  }

  /** `x` inserted in front of a sorted `s` is tied with `t` only if nothing in `s` is. */
  lemma InsertInFrontKeepsTies(key: SortKey, now: int, x: Task, s: seq<Task>, t: Task)
    requires Sorted(key, now, s) && s != [] && Less(key, now, x, s[0])
    requires key == ByStatus ==> KnownStatuses(s) && KnownStatuses([x, t])
    ensures Filter(TiedWith(key, now, t), [x] + s)
            == Filter(TiedWith(key, now, t), s) + (if Tied(key, now, x, t) then [x] else [])
  {
    var p := TiedWith(key, now, t);
    FilterCons(p, x, s);
    if Tied(key, now, x, t) {
      forall u | u in s ensures !p(u) {
        AfterSmallerNotTied(key, now, x, s, t, u);
      }
      FilterNone(p, s);
    }
  }

  /** Inserting `x` puts it after every task of `s` that is tied with `t`, when `x` is too. */
  lemma {:induction false} InsertKeepsTies(key: SortKey, now: int, x: Task, s: seq<Task>, t: Task)
    requires Sorted(key, now, s)
    requires key == ByStatus ==> KnownStatuses(s) && KnownStatuses([x, t])
    ensures Filter(TiedWith(key, now, t), Insert(key, now, x, s))
            == Filter(TiedWith(key, now, t), s) + (if Tied(key, now, x, t) then [x] else [])
  {
    var p := TiedWith(key, now, t);
    if s == [] {
      assert Insert(key, now, x, s) == [x] + [];
      FilterCons(p, x, []);
    } else if Less(key, now, x, s[0]) {
      InsertInFrontKeepsTies(key, now, x, s, t);
    } else {
      var rest := s[1..];
      assert s == [s[0]] + rest;
      assert Sorted(key, now, rest) by {
        forall i, j | 0 <= i < j < |rest| ensures !Less(key, now, rest[j], rest[i]) {
          assert rest[i] == s[i + 1] && rest[j] == s[j + 1];
        }
      }
      if key == ByStatus {
        forall u | u in rest ensures StatusRank(u.status).Some? { assert u in s; }
      }
      var head := if p(s[0]) then [s[0]] else [];
      var last := if Tied(key, now, x, t) then [x] else [];
      calc {
        Filter(p, Insert(key, now, x, s));
        { assert Insert(key, now, x, s) == [s[0]] + Insert(key, now, x, rest); }
        Filter(p, [s[0]] + Insert(key, now, x, rest));
        { FilterCons(p, s[0], Insert(key, now, x, rest)); }
        head + Filter(p, Insert(key, now, x, rest));
        { InsertKeepsTies(key, now, x, rest, t); }
        head + (Filter(p, rest) + last);
        (head + Filter(p, rest)) + last;
        { FilterCons(p, s[0], rest); }
        Filter(p, s) + last;
      }
    }
  }

  /**
   * `Array.prototype.sort` is stable: the tasks the comparator ties with any `t` keep their
   * input order. For `ByStatus` this is stated when every status is a key.
   */
  lemma {:induction false} SortTasksStable(tasks: seq<Task>, key: SortKey, now: int, t: Task)
    requires key == ByStatus ==> KnownStatuses(tasks) && KnownStatuses([t])
    ensures Filter(TiedWith(key, now, t), SortTasks(tasks, key, now)) == Filter(TiedWith(key, now, t), tasks)
  {
    if tasks != [] {
      var init, x := tasks[..|tasks| - 1], tasks[|tasks| - 1];
      assert tasks == init + [x];
      var sorted := SortTasks(init, key, now);
      if key == ByStatus {
        forall u | u in sorted ensures StatusRank(u.status).Some? {
          assert u in multiset(sorted);
          assert u in multiset(init);
        }
        assert x in tasks;
      }
      SortTasksStable(init, key, now, t);
      SortTasksSorted(init, key, now);
      InsertKeepsTies(key, now, x, sorted, t);
      FilterAppend(TiedWith(key, now, t), init, x);
    }
  }

  // ---------------------------------------------------------------- filtering

  /** The optional filters; "" stands for an unset (falsy) filter. */
  datatype Filters = Filters(status: string, assignedTo: string, search: string)

  /** The search test: the lower-cased query occurs in the lower-cased title or description. */
  predicate MatchesSearch(task: Task, query: string) {
    Contains(Lower(task.title), Lower(query)) || Contains(Lower(task.description), Lower(query))
  }

  /** The callback of `filterTasks`. */
  predicate Keep(filters: Filters, task: Task) {
    && (filters.status != "" && filters.status != "all" ==> task.status == filters.status)
    && (filters.assignedTo != "" ==> task.assignee == Some(filters.assignedTo))
    && (filters.search != "" ==> MatchesSearch(task, filters.search))
  }

  /** `filterTasks`: the tasks passing every set filter, in their original order. */
  function FilterTasks(tasks: seq<Task>, filters: Filters): (r: seq<Task>)
    ensures forall t :: t in r <==> t in tasks && Keep(filters, t)
    ensures forall t :: t in tasks ==> multiset(r)[t] == if Keep(filters, t) then multiset(tasks)[t] else 0
    ensures Subsequence(r, tasks)
  {
    Filter((t: Task) => Keep(filters, t), tasks)
  }

  /**
   * Each filter on its own: a status filter other than `'all'` keeps only that status, an
   * assignee filter drops unassigned tasks, and with no filter set everything is kept.
   */
  lemma FilterTasksEffects(tasks: seq<Task>, filters: Filters)
    ensures filters.status != "" && filters.status != "all" ==>
      forall t :: t in FilterTasks(tasks, filters) ==> t.status == filters.status
    ensures filters.assignedTo != "" ==>
      forall t :: t in FilterTasks(tasks, filters) ==> t.assignee.Some? && t.assignee.value == filters.assignedTo
    ensures filters.search != "" ==>
      forall t :: t in tasks ==> (t in FilterTasks(tasks, filters) <==> Keep(filters.(search := ""), t) && MatchesSearch(t, filters.search))
    ensures filters == Filters("", "", "") ==> FilterTasks(tasks, filters) == tasks
    ensures filters == Filters("all", "", "") ==> FilterTasks(tasks, filters) == tasks
  {
    if filters == Filters("", "", "") || filters == Filters("all", "", "") {
      FilterAll((t: Task) => Keep(filters, t), tasks);
    }
  }

  // ---------------------------------------------------------------- grouping and progress

  datatype Groups = Groups(todo: seq<Task>, inprogress: seq<Task>, completed: seq<Task>)

  /** `groupTasksByStatus`: one bucket per display string. */
  function GroupTasksByStatus(tasks: seq<Task>): Groups {
    Groups(WithStatus(tasks, TODO), WithStatus(tasks, IN_PROGRESS), WithStatus(tasks, COMPLETED))
  }

  /** A status that is one of the three display strings. */
  predicate IsDisplayStatus(status: string) {
    status == TODO || status == IN_PROGRESS || status == COMPLETED
  }

  /**
   * Every task lands in at most one bucket, and in one exactly when its status is one of
   * the display strings; the bucket sizes add up to the number of tasks exactly when all do.
   */
  lemma GroupingPartitions(tasks: seq<Task>)
    ensures var g := GroupTasksByStatus(tasks);
      && |g.todo| + |g.inprogress| + |g.completed| <= |tasks|
      && (|g.todo| + |g.inprogress| + |g.completed| == |tasks| <==>
            forall t :: t in tasks ==> IsDisplayStatus(t.status))
    ensures var g := GroupTasksByStatus(tasks);
      forall t :: t in tasks ==>
        ((t in g.todo || t in g.inprogress || t in g.completed) <==> IsDisplayStatus(t.status))
    ensures var g := GroupTasksByStatus(tasks);
      forall t :: !(t in g.todo && t in g.inprogress) && !(t in g.todo && t in g.completed)
                  && !(t in g.inprogress && t in g.completed)
  {
    StatusCountsPartition(tasks, TODO, IN_PROGRESS, COMPLETED);
  }

  /** `calculateProgress`: the rounded percentage of tasks with status `'Completed'`. */
  function CalculateProgress(tasks: seq<Task>): (r: int)
    ensures 0 <= r <= 100
    ensures tasks == [] ==> r == 0
    ensures tasks != [] ==>
      var done := |WithStatus(tasks, COMPLETED)|;
      |tasks| * (2 * r - 1) <= 200 * done < |tasks| * (2 * r + 1)
  {
    if tasks == [] then 0
    else
      var done := |WithStatus(tasks, COMPLETED)|;
      assert 0 <= done <= |tasks|;
      RoundDivBounds(done * 100, |tasks|, 0, 100);
      RoundDiv(done * 100, |tasks|)
  }

  /** All tasks completed gives 100. */
  lemma ProgressAllCompleted(tasks: seq<Task>)
    requires tasks != [] && forall t :: t in tasks ==> t.status == COMPLETED
    ensures CalculateProgress(tasks) == 100
  {
    WithStatusAll(tasks, COMPLETED);
    RoundDivExact(|tasks| * 100, |tasks|, 100);
  }

  /** No task completed gives 0. */
  lemma ProgressNoneCompleted(tasks: seq<Task>)
    requires forall t :: t in tasks ==> t.status != COMPLETED
    ensures CalculateProgress(tasks) == 0
  {
    if tasks != [] {
      WithStatusAbsent(tasks, COMPLETED);
      RoundDivExact(0, |tasks|, 0);
    }
  }

  /**
   * The display-string quirk: on tasks that carry the board's status keys, every bucket is
   * empty and the progress is 0, however many tasks are `completed`.
   */
  lemma BoardKeysAreNotGrouped(tasks: seq<Task>)
    requires forall t :: t in tasks ==> t.status in {"todo", "inprogress", "completed"}
    ensures GroupTasksByStatus(tasks) == Groups([], [], [])
    ensures CalculateProgress(tasks) == 0
    ensures forall t, now :: t in tasks && t.dueDate.Some? && t.dueDate.value < now ==> IsTaskOverdue(t, now)
  {
    WithStatusAbsent(tasks, TODO);
    WithStatusAbsent(tasks, IN_PROGRESS);
    WithStatusAbsent(tasks, COMPLETED);
    ProgressNoneCompleted(tasks);
  }
}
