/** The task record shared by the board, the task list and the task helpers. */
module Tasks {
  import opened Wrappers
  import opened Seqs

  /**
   * A task as the server sends it. `id` is its `_id`; `assignee` is `assignedTo._id`;
   * `dueDate` and `createdAt` are instants in milliseconds; an absent description is "".
   * `status` is free text: the board writes the keys `todo` / `inprogress` / `completed`.
   */
  datatype Task = Task(
    id: string,
    title: string,
    description: string,
    status: string,
    assignee: Option<string>,
    dueDate: Option<int>,
    createdAt: int)

  /** `tasks.filter(task => task.status === status)`. */
  function WithStatus(tasks: seq<Task>, status: string): (r: seq<Task>)
    ensures forall t :: t in r <==> t in tasks && t.status == status
    ensures forall t :: t in tasks ==> multiset(r)[t] == if t.status == status then multiset(tasks)[t] else 0
    ensures Subsequence(r, tasks)
  {
    Filter((t: Task) => t.status == status, tasks)
  }

  /** How `WithStatus` treats a sequence one element longer at the front. */
  lemma WithStatusCons(t: Task, ts: seq<Task>, status: string)
    ensures WithStatus([t] + ts, status) == (if t.status == status then [t] else []) + WithStatus(ts, status)
  {
    assert ([t] + ts)[1..] == ts;
  }

  /**
   * For three different statuses, the three per-status counts add up to at most the
   * number of tasks, and to exactly that number iff every task has one of the three.
   */
  lemma {:induction false} StatusCountsPartition(tasks: seq<Task>, a: string, b: string, c: string)
    requires a != b && b != c && a != c
    ensures |WithStatus(tasks, a)| + |WithStatus(tasks, b)| + |WithStatus(tasks, c)| <= |tasks|
    ensures |WithStatus(tasks, a)| + |WithStatus(tasks, b)| + |WithStatus(tasks, c)| == |tasks|
            <==> forall t :: t in tasks ==> t.status == a || t.status == b || t.status == c
  {
    if tasks != [] {
      var rest := tasks[1..];
      assert tasks == [tasks[0]] + rest;
      WithStatusCons(tasks[0], rest, a);
      WithStatusCons(tasks[0], rest, b);
      WithStatusCons(tasks[0], rest, c);
      StatusCountsPartition(rest, a, b, c);
    }
  }

  /** A status that no task has selects nothing. */
  lemma WithStatusAbsent(tasks: seq<Task>, status: string)
    requires forall t :: t in tasks ==> t.status != status
    ensures WithStatus(tasks, status) == []
  {
    FilterNone((t: Task) => t.status == status, tasks);
  }

  /** A status that every task has selects everything. */
  lemma WithStatusAll(tasks: seq<Task>, status: string)
    requires forall t :: t in tasks ==> t.status == status
    ensures WithStatus(tasks, status) == tasks
  {
    FilterAll((t: Task) => t.status == status, tasks);
  }
}
