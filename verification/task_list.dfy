/**
 * The task list view: a status filter (`'all'` or a board key), a sort order
 * (`'dueDate'`, `'title'`, otherwise newest first), the overdue marker and the
 * per-status counts on the filter buttons. Unlike the task helpers, this view
 * uses the board keys `todo` / `inprogress` / `completed`.
 */
module TaskList {
  import opened Strings
  import opened Seqs
  import opened Tasks
  import opened TaskHelpers

  /** `isOverdue`: a due date before `now` on a task whose status is not `'completed'`. */
  predicate IsOverdue(task: Task, now: int) {
    task.dueDate.Some? && task.dueDate.value < now && task.status != "completed"
  }

  /**
   * The list's overdue marker and `isTaskOverdue` agree except on the spelling of the
   * finished status: a `completed` task past its due date is overdue for the helper only.
   */
  lemma OverdueMarkersAgree(task: Task, now: int)
    ensures task.status != "completed" && task.status != COMPLETED ==>
      (IsOverdue(task, now) <==> IsTaskOverdue(task, now))
    ensures task.status == "completed" && task.dueDate.Some? && task.dueDate.value < now ==>
      !IsOverdue(task, now) && IsTaskOverdue(task, now)
  {
  }

  /** `filteredTasks`: everything under `'all'`, otherwise the tasks with exactly that status. */
  function FilteredTasks(tasks: seq<Task>, filter: string): (r: seq<Task>)
    ensures forall t :: t in r <==> t in tasks && (filter == "all" || t.status == filter)
    ensures Subsequence(r, tasks)
    ensures filter == "all" ==> r == tasks
  {
    SubsequenceReflexive(tasks);
    if filter == "all" then tasks else WithStatus(tasks, filter)
  }

  /** The `switch (sortBy)` of `sortedTasks`: only due date and title, otherwise newest first. */
  function ListSortKey(sortBy: string): SortKey {
    if sortBy == "dueDate" then ByDueDate
    else if sortBy == "title" then ByTitle
    else ByCreatedAt
  }

  /** `sortedTasks`: the filtered tasks, copied and sorted. */
  function SortedTasks(filtered: seq<Task>, sortBy: string, now: int): (r: seq<Task>)
    ensures multiset(r) == multiset(filtered)
  {
    SortTasks(filtered, ListSortKey(sortBy), now)
  }

  /**
   * Under `'dueDate'` every dated task precedes every undated one and dated tasks ascend;
   * under `'title'` titles ascend; under any other key `createdAt` descends.
   */
  lemma SortedTasksOrder(filtered: seq<Task>, sortBy: string, now: int)
    ensures sortBy == "dueDate" ==> DueDateAscending(SortedTasks(filtered, sortBy, now))
    ensures sortBy == "title" ==> TitleAscending(SortedTasks(filtered, sortBy, now))
    ensures sortBy != "dueDate" && sortBy != "title" ==> NewestFirst(SortedTasks(filtered, sortBy, now))
  {
    SortTasksOrder(filtered, ListSortKey(sortBy), now);
  }

  /**
   * The counts on the `To Do`, `In Progress` and `Completed` buttons add up to at most the
   * `All` count, and to exactly it iff every task has one of the three board statuses.
   */
  lemma ButtonCounts(tasks: seq<Task>)
    ensures |WithStatus(tasks, "todo")| + |WithStatus(tasks, "inprogress")| + |WithStatus(tasks, "completed")| <= |tasks|
    ensures |WithStatus(tasks, "todo")| + |WithStatus(tasks, "inprogress")| + |WithStatus(tasks, "completed")| == |tasks|
            <==> forall t :: t in tasks ==> t.status == "todo" || t.status == "inprogress" || t.status == "completed"
  {
    StatusCountsPartition(tasks, "todo", "inprogress", "completed");
  }
}
