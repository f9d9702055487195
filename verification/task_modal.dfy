/**
 * The task modal: the form opened for a new or an existing task, its title rule, the
 * per-field edit handler, and the payload it hands to the board on submit.
 */
module TaskModalForm {
  import opened Wrappers
  import opened Strings
  import opened Tasks
  import opened Projects
  import opened FormRules

  const TASK_TITLE_REQUIRED := "Task title is required"
  const SAVE_FAILED := "Failed to save task. Please try again."

  /** The form fields; `assignedTo` and `dueDate` are "" when unset (`dueDate` as yyyy-mm-dd). */
  datatype TaskForm = TaskForm(
    title: string,
    description: string,
    assignedTo: string,
    dueDate: string,
    status: string)

  const EMPTY_FORM := TaskForm("", "", "", "", "todo")

  /** The error record: only `title` and `backend` are ever set; "" means no message. */
  datatype TaskErrors = TaskErrors(title: string, backend: string)

  const NO_ERRORS := TaskErrors("", "")

  datatype TaskField = Title | Description | AssignedTo | DueDate | Status

  /** `assignedTo` of the payload: left out of the object, or set (possibly to `undefined`). */
  datatype Assignment = Omitted | SetTo(assignee: Option<string>)

  /** `submitData`. */
  datatype TaskPayload = TaskPayload(
    title: string,
    description: string,
    status: string,
    dueDate: Option<string>,
    assignedTo: Assignment)

  /** How the parent's `onSubmit` ended: resolved, or rejected with these messages ("" if none). */
  datatype SubmitOutcome = Saved | SaveFailed(responseMessage: string, errorMessage: string)

  /**
   * The form the opening effect sets: a copy of the task being edited (with "" and `todo`
   * for missing values, the due date as its calendar day by `isoDay`), or a blank form in
   * the column's status.
   */
  function InitialTaskForm(initialData: Option<Task>, initialStatus: string, isoDay: int -> string): (f: TaskForm)
    ensures initialData.None? ==> f == EMPTY_FORM.(status := initialStatus)
    ensures initialData.Some? ==>
      var t := initialData.value;
      && f.title == t.title && f.description == t.description
      && f.assignedTo == t.assignee.GetOr("")
      && (t.dueDate.None? ==> f.dueDate == "")
      && (t.dueDate.Some? ==> f.dueDate == isoDay(t.dueDate.value))
      && f.status == (if t.status == "" then "todo" else t.status)
  {
    match initialData
    case None => EMPTY_FORM.(status := initialStatus)
    case Some(t) =>
      TaskForm(t.title, t.description, t.assignee.GetOr(""),
               if t.dueDate.Some? then isoDay(t.dueDate.value) else "",
               if t.status == "" then "todo" else t.status)
  }

  /** `{ ...prev, [name]: value }`. */
  function WithField(form: TaskForm, field: TaskField, value: string): TaskForm {
    match field
    case Title => form.(title := value)
    case Description => form.(description := value)
    case AssignedTo => form.(assignedTo := value)
    case DueDate => form.(dueDate := value)
    case Status => form.(status := value)
  }

  /** The value of one field. */
  function FieldOf(form: TaskForm, field: TaskField): string {
    match field
    case Title => form.title
    case Description => form.description
    case AssignedTo => form.assignedTo
    case DueDate => form.dueDate
    case Status => form.status
  }

  /** Editing a field sets that field and leaves every other field as it was. */
  lemma WithFieldOnlyThatField(form: TaskForm, field: TaskField, value: string, other: TaskField)
    ensures FieldOf(WithField(form, field, value), field) == value
    ensures other != field ==> FieldOf(WithField(form, field, value), other) == FieldOf(form, other)
  {
  }

  /** `validateForm`'s verdict: the task title rule. */
  predicate ValidTaskForm(form: TaskForm) {
    TitleError(form.title, TASK_TITLE_REQUIRED) == ""
  }

  /**
   * `submitData`: trimmed title and description, the status as is, an empty due date left
   * `undefined`; the owner sends the chosen assignee (`undefined` when none), a member
   * creating a task assigns it to themself (`_id`, else `id`), a member editing sends none.
   */
  function SubmitData(form: TaskForm, isOwner: bool, editing: bool, user: User): (p: TaskPayload)
    ensures p.title == Trim(form.title) && p.description == Trim(form.description)
    ensures p.status == form.status
    ensures p.dueDate.None? <==> form.dueDate == ""
    ensures p.dueDate.Some? ==> p.dueDate.value == form.dueDate
    ensures isOwner ==> p.assignedTo == SetTo(if form.assignedTo == "" then None else Some(form.assignedTo))
    ensures !isOwner && editing ==> p.assignedTo == Omitted
    ensures !isOwner && !editing && user.mongoId.Some? && user.mongoId.value != "" ==>
      p.assignedTo == SetTo(user.mongoId)
    ensures !isOwner && !editing && (user.mongoId.None? || user.mongoId.value == "") ==>
      p.assignedTo == SetTo(user.id)
  {
    var assignment :=
      if isOwner then SetTo(if form.assignedTo == "" then None else Some(form.assignedTo))
      else if editing then Omitted
      else if user.mongoId.Some? && user.mongoId.value != "" then SetTo(user.mongoId)
      else SetTo(user.id);
    TaskPayload(Trim(form.title), Trim(form.description), form.status,
                if form.dueDate == "" then None else Some(form.dueDate), assignment)
  }

  /** A form that passes validation still sends a non-empty title. */
  lemma ValidFormSendsTitle(form: TaskForm, isOwner: bool, editing: bool, user: User)
    requires ValidTaskForm(form)
    ensures SubmitData(form, isOwner, editing, user).title != ""
  {
  }

  /** The message shown for a failed save: the server's, else the error's, else a default. */
  function SaveErrorMessage(responseMessage: string, errorMessage: string): (m: string)
    ensures m != ""
    ensures responseMessage != "" ==> m == responseMessage
    ensures responseMessage == "" && errorMessage != "" ==> m == errorMessage
    ensures responseMessage == "" && errorMessage == "" ==> m == SAVE_FAILED
  {
    if responseMessage != "" then responseMessage
    else if errorMessage != "" then errorMessage
    else SAVE_FAILED
  }

  class TaskModal {
    var form: TaskForm
    var errors: TaskErrors
    var loading: bool
    /** The payloads handed to `onSubmit`, in order. */
    var submitted: seq<TaskPayload>
    /** How many times `onClose` was called. */
    var closeCalls: nat

    constructor()
      ensures form == EMPTY_FORM && errors == NO_ERRORS && !loading
      ensures submitted == [] && closeCalls == 0
    {
      form := EMPTY_FORM;
      errors := NO_ERRORS;
      loading := false;
      submitted := [];
      closeCalls := 0;
    }

    /** The opening effect: the initial form and no errors. */
    method Open(initialData: Option<Task>, initialStatus: string, isoDay: int -> string)
      modifies this
      ensures form == InitialTaskForm(initialData, initialStatus, isoDay)
      ensures errors == NO_ERRORS
      ensures loading == old(loading) && submitted == old(submitted) && closeCalls == old(closeCalls)
    {
      form := InitialTaskForm(initialData, initialStatus, isoDay);
      errors := NO_ERRORS;
    }

    /** `handleChange`: sets the field and clears its own message and the backend message. */
    method HandleChange(field: TaskField, value: string)
      modifies this
      ensures form == WithField(old(form), field, value)
      ensures errors.backend == ""
      ensures field == Title ==> errors.title == ""
      ensures field != Title ==> errors.title == old(errors.title)
      ensures loading == old(loading) && submitted == old(submitted) && closeCalls == old(closeCalls)
    {
      form := WithField(form, field, value);
      if field == Title && errors.title != "" {
        errors := errors.(title := "");
      }
      if errors.backend != "" {
        errors := errors.(backend := "");
      }
    }

    /** `validateForm`: stores the title message alone (dropping any backend message). */
    method ValidateForm() returns (valid: bool)
      modifies this
      ensures valid <==> ValidTaskForm(form)
      ensures valid <==> !IsBlank(form.title) && 3 <= |form.title| <= 100
      ensures errors == TaskErrors(TitleError(form.title, TASK_TITLE_REQUIRED), "")
      ensures form == old(form) && loading == old(loading)
      ensures submitted == old(submitted) && closeCalls == old(closeCalls)
    {
      errors := TaskErrors(TitleError(form.title, TASK_TITLE_REQUIRED), "");
      valid := errors.title == "";
    }

    /**
     * `handleSubmit`: an invalid form stops after validation without calling `onSubmit`;
     * otherwise the errors are cleared and the payload is submitted once; on success the
     * form is reset and `onClose` called, on failure only the backend message is shown.
     */
    method HandleSubmit(isOwner: bool, editing: bool, user: User, outcome: SubmitOutcome)
      modifies this
      ensures !ValidTaskForm(old(form)) ==>
        submitted == old(submitted) && form == old(form) && closeCalls == old(closeCalls)
        && loading == old(loading)
        && errors == TaskErrors(TitleError(old(form).title, TASK_TITLE_REQUIRED), "")
      ensures ValidTaskForm(old(form)) ==>
        submitted == old(submitted) + [SubmitData(old(form), isOwner, editing, user)] && !loading
      ensures ValidTaskForm(old(form)) && outcome.Saved? ==>
        form == EMPTY_FORM && errors == NO_ERRORS && closeCalls == old(closeCalls) + 1
      ensures ValidTaskForm(old(form)) && outcome.SaveFailed? ==>
        form == old(form) && closeCalls == old(closeCalls)
        && errors == TaskErrors("", SaveErrorMessage(outcome.responseMessage, outcome.errorMessage))
    {
      var valid := ValidateForm();
      if !valid {
        return;
      }
      loading := true;
      errors := NO_ERRORS;
      submitted := submitted + [SubmitData(form, isOwner, editing, user)];
      if outcome.Saved? {
        form := EMPTY_FORM;
        closeCalls := closeCalls + 1;
      } else {
        errors := TaskErrors("", SaveErrorMessage(outcome.responseMessage, outcome.errorMessage));
      }
      loading := false;
    }
  }
}
