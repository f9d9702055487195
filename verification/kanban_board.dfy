/**
 * The Kanban board of one project: three columns selected by status, a drag that moves a
 * task into the column it is dropped on before the server answers (fetching the tasks
 * again if the server refuses), and the add / edit / delete / submit handlers around the
 * task modal.
 */
module KanbanBoard {
  import opened Wrappers
  import opened Seqs
  import opened Tasks
  import opened TaskModalForm

  const TODO := "todo"
  const IN_PROGRESS := "inprogress"
  const COMPLETED := "completed"

  /**
   * The board renders its task modal without an `isOwner` prop, so the modal takes its
   * default: it always builds the owner's payload.
   */
  const BOARD_MODAL_IS_OWNER := true

  /** One end of a drag: the column key and the position in it. */
  datatype Location = Location(droppableId: string, index: int)

  /** What the drag-and-drop library reports when a drag ends (no destination: dropped outside). */
  datatype DropResult = DropResult(source: Location, destination: Option<Location>, draggableId: string)

  /** The task-service calls the board makes. */
  datatype TaskCall =
    | GetTasks(projectId: string)
    | UpdateTaskStatus(projectId: string, taskId: string, status: string)
    | CreateTask(projectId: string, payload: TaskPayload)
    | UpdateTask(projectId: string, taskId: string, payload: TaskPayload)
    | DeleteTask(projectId: string, taskId: string)

  /** How a task fetch ended: the data the server sent (possibly none), or a failure. */
  datatype TasksFetch = Fetched(data: Option<seq<Task>>) | FetchFailed

  /** The tasks after a fetch: the server's list (`data || []`), or the current ones on failure. */
  function FetchedTasks(current: seq<Task>, response: TasksFetch): (r: seq<Task>)
    ensures response.FetchFailed? ==> r == current
    ensures response.Fetched? && response.data.None? ==> r == []
    ensures response.Fetched? && response.data.Some? ==> r == response.data.value
  {
    match response
    case FetchFailed => current
    case Fetched(data) => data.GetOr([])
  }

  /** A column: the tasks whose status is the column's key, in board order. */
  function Column(tasks: seq<Task>, key: string): (r: seq<Task>)
    ensures forall t :: t in r <==> t in tasks && t.status == key
    ensures Subsequence(r, tasks)
  {
    WithStatus(tasks, key)
  }

  /** The key of one of the three columns. */
  predicate IsColumnKey(status: string) {
    status == TODO || status == IN_PROGRESS || status == COMPLETED
  }

  /** Every task has the status of one of the three columns. */
  predicate OnBoard(tasks: seq<Task>) {
    forall t :: t in tasks ==> IsColumnKey(t.status)
  }

  /** The optimistic update of a drag: every task with the dragged `_id` takes the new status. */
  function MoveTask(tasks: seq<Task>, id: string, status: string): (r: seq<Task>)
    ensures |r| == |tasks|
    ensures forall i :: 0 <= i < |tasks| ==>
      r[i] == if tasks[i].id == id then tasks[i].(status := status) else tasks[i]
  {
    Map((t: Task) => if t.id == id then t.(status := status) else t, tasks)
  }

  /** After a move, a dragged task is in the target column and in no other. */
  lemma MoveTaskTargetColumn(tasks: seq<Task>, id: string, status: string, other: string)
    requires other != status
    ensures forall t :: t in MoveTask(tasks, id, status) && t.id == id ==> t in Column(MoveTask(tasks, id, status), status)
    ensures forall t :: t in Column(MoveTask(tasks, id, status), other) ==> t.id != id
  {
    var r := MoveTask(tasks, id, status);
    forall t | t in r && t.id == id ensures t.status == status {
      var i :| 0 <= i < |r| && r[i] == t;
    }
  }

  /** A move leaves every other task where and as it was. */
  lemma MoveTaskKeepsOthers(tasks: seq<Task>, id: string, status: string, i: nat)
    requires i < |tasks| && tasks[i].id != id
    ensures MoveTask(tasks, id, status)[i] == tasks[i]
  {
  }

  /** Moving a task again to the same column changes nothing. */
  lemma {:induction false} MoveTaskIdempotent(tasks: seq<Task>, id: string, status: string)
    ensures MoveTask(MoveTask(tasks, id, status), id, status) == MoveTask(tasks, id, status)
  {
    var r := MoveTask(tasks, id, status);
    var rr := MoveTask(r, id, status);
    assert |rr| == |r|;
    forall i | 0 <= i < |r| ensures rr[i] == r[i] {
    }
  }

  /** Dropping a task on the column it is already in leaves the tasks unchanged. */
  lemma {:induction false} MoveTaskSameColumn(tasks: seq<Task>, id: string, status: string)
    requires forall t :: t in tasks && t.id == id ==> t.status == status
    ensures MoveTask(tasks, id, status) == tasks
  {
    var r := MoveTask(tasks, id, status);
    forall i | 0 <= i < |tasks| ensures r[i] == tasks[i] {
      assert tasks[i] in tasks;
    }
  }

  /**
   * A drop on one of the three columns keeps every task on the board: the three columns
   * together still hold exactly as many tasks as there are.
   */
  lemma MoveTaskKeepsBoard(tasks: seq<Task>, id: string, status: string)
    requires OnBoard(tasks) && IsColumnKey(status)
    ensures OnBoard(MoveTask(tasks, id, status))
    ensures var r := MoveTask(tasks, id, status);
      |Column(r, TODO)| + |Column(r, IN_PROGRESS)| + |Column(r, COMPLETED)| == |tasks|
  {
    var r := MoveTask(tasks, id, status);
    forall t | t in r ensures IsColumnKey(t.status) {
      var i :| 0 <= i < |r| && r[i] == t;
      assert tasks[i] in tasks;
    }
    StatusCountsPartition(r, TODO, IN_PROGRESS, COMPLETED);
  }

  /**
   * The board's modal builds the owner's payload: whoever submits, creating or editing,
   * the assignee chosen in the form is sent, and none when the field is empty.
   */
  lemma BoardModalSendsAssignment(form: TaskForm, editing: bool, user: Projects.User)
    ensures SubmitData(form, BOARD_MODAL_IS_OWNER, editing, user).assignedTo
            == SetTo(if form.assignedTo == "" then None else Some(form.assignedTo))
  {
  }

  class Board {
    const projectId: string
    var tasks: seq<Task>
    var loading: bool
    var isTaskModalOpen: bool
    var editingTask: Option<Task>
    var selectedStatus: string
    /** The task-service calls made so far, in order. */
    var calls: seq<TaskCall>

    /** The board before its first fetch: no tasks, loading, the modal closed. */
    constructor(projectId: string)
      ensures this.projectId == projectId
      ensures tasks == [] && loading && !isTaskModalOpen && editingTask == None
      ensures selectedStatus == TODO && calls == []
    {
      this.projectId := projectId;
      tasks := [];
      loading := true;
      isTaskModalOpen := false;
      editingTask := None;
      selectedStatus := TODO;
      calls := [];
    }

    /** `fetchTasks`: one request; the tasks become the server's list, kept on failure. */
    method FetchTasks(response: TasksFetch)
      modifies this
      ensures calls == old(calls) + [GetTasks(projectId)]
      ensures tasks == FetchedTasks(old(tasks), response) && !loading
      ensures isTaskModalOpen == old(isTaskModalOpen) && editingTask == old(editingTask)
      ensures selectedStatus == old(selectedStatus)
    {
      loading := true;
      calls := calls + [GetTasks(projectId)];
      tasks := FetchedTasks(tasks, response);
      loading := false;
    }

    /**
     * `handleDragEnd`: a drop outside the columns or on the same place does nothing;
     * otherwise the dragged task takes the target column's status at once and one status
     * update is sent; if it fails (`!ok`) the tasks are fetched again (`refetch`).
     */
    method HandleDragEnd(result: DropResult, ok: bool, refetch: TasksFetch)
      modifies this
      ensures result.destination.None? || result.destination.value == result.source ==>
        tasks == old(tasks) && calls == old(calls) && loading == old(loading)
      ensures result.destination.Some? && result.destination.value != result.source && ok ==>
        var status := result.destination.value.droppableId;
        tasks == MoveTask(old(tasks), result.draggableId, status)
        && calls == old(calls) + [UpdateTaskStatus(projectId, result.draggableId, status)]
        && loading == old(loading)
      ensures result.destination.Some? && result.destination.value != result.source && !ok ==>
        var status := result.destination.value.droppableId;
        tasks == FetchedTasks(MoveTask(old(tasks), result.draggableId, status), refetch)
        && calls == old(calls) + [UpdateTaskStatus(projectId, result.draggableId, status), GetTasks(projectId)]
        && !loading
      ensures isTaskModalOpen == old(isTaskModalOpen) && editingTask == old(editingTask)
      ensures selectedStatus == old(selectedStatus)
    {
      if result.destination.None? {
        return;
      }
      var destination := result.destination.value;
      if result.source.droppableId == destination.droppableId && result.source.index == destination.index {
        return;
      }
      var status := destination.droppableId;
      tasks := MoveTask(tasks, result.draggableId, status);
      calls := calls + [UpdateTaskStatus(projectId, result.draggableId, status)];
      if !ok {
        FetchTasks(refetch);
      }
    }

    /** `handleAddTask`: opens the modal for a new task in the given column. */
    method HandleAddTask(status: string)
      modifies this
      ensures selectedStatus == status && editingTask == None && isTaskModalOpen
      ensures tasks == old(tasks) && calls == old(calls) && loading == old(loading)
    {
      selectedStatus := status;
      editingTask := None;
      isTaskModalOpen := true;
    }

    /** `handleEditTask`: opens the modal on an existing task. */
    method HandleEditTask(task: Task)
      modifies this
      ensures editingTask == Some(task) && isTaskModalOpen
      ensures selectedStatus == old(selectedStatus)
      ensures tasks == old(tasks) && calls == old(calls) && loading == old(loading)
    {
      editingTask := Some(task);
      isTaskModalOpen := true;
    }

    /** The modal's `onClose`: closes it and forgets the task being edited. */
    method CloseModal()
      modifies this
      ensures !isTaskModalOpen && editingTask == None
      ensures selectedStatus == old(selectedStatus)
      ensures tasks == old(tasks) && calls == old(calls) && loading == old(loading)
    {
      isTaskModalOpen := false;
      editingTask := None;
    }

    /**
     * `handleDeleteTask`: only after confirmation, one delete request; when it succeeds
     * (`ok`) the tasks are fetched again, otherwise they stay as they were.
     */
    method HandleDeleteTask(task: Task, confirmed: bool, ok: bool, refetch: TasksFetch)
      modifies this
      ensures !confirmed ==> tasks == old(tasks) && calls == old(calls) && loading == old(loading)
      ensures confirmed && ok ==>
        calls == old(calls) + [DeleteTask(projectId, task.id), GetTasks(projectId)]
        && tasks == FetchedTasks(old(tasks), refetch) && !loading
      ensures confirmed && !ok ==>
        calls == old(calls) + [DeleteTask(projectId, task.id)] && tasks == old(tasks)
        && loading == old(loading)
      ensures isTaskModalOpen == old(isTaskModalOpen) && editingTask == old(editingTask)
      ensures selectedStatus == old(selectedStatus)
    {
      if !confirmed {
        return;
      }
      calls := calls + [DeleteTask(projectId, task.id)];
      if ok {
        FetchTasks(refetch);
      }
    }

    /**
     * `handleSubmitTask`: an update of the task being edited, else a creation; on success
     * the tasks are fetched again and the modal closed; on failure nothing else changes
     * and the error is passed back to the modal (`rethrown`).
     */
    method HandleSubmitTask(payload: TaskPayload, ok: bool, refetch: TasksFetch) returns (rethrown: bool)
      modifies this
      ensures rethrown <==> !ok
      ensures var call := if old(editingTask).Some? then UpdateTask(projectId, old(editingTask).value.id, payload)
                          else CreateTask(projectId, payload);
        && (ok ==> calls == old(calls) + [call, GetTasks(projectId)])
        && (!ok ==> calls == old(calls) + [call])
      ensures ok ==>
        tasks == FetchedTasks(old(tasks), refetch) && !loading && !isTaskModalOpen && editingTask == None
      ensures !ok ==>
        tasks == old(tasks) && loading == old(loading)
        && isTaskModalOpen == old(isTaskModalOpen) && editingTask == old(editingTask)
      ensures selectedStatus == old(selectedStatus)
    {
      if editingTask.Some? {
        calls := calls + [UpdateTask(projectId, editingTask.value.id, payload)];
      } else {
        calls := calls + [CreateTask(projectId, payload)];
      }
      if !ok {
        return true;
      }
      FetchTasks(refetch);
      isTaskModalOpen := false;
      editingTask := None;
      return false;
    }
  }
}
