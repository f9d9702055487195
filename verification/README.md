# Project planner frontend — a Dafny model

This project models the logic of a React client for a project planner: projects with an
owner and members, tasks on a three-column Kanban board, and the sign-up and login pages.
Most of the client is markup. The logic that remains is a set of small state transitions
and pure functions over lists and records:

- the Kanban board's drag handler, which moves a task at once and fetches the tasks again if
  the server refuses the move, and its create / edit / delete handlers;
- the task helpers (sort, filter, group, progress, priority) and the task list view;
- the dashboard's project list: replacement by id on a `projectUpdated` event, prepending
  on create, and the summary metrics;
- the project context store (append, remove by id, replace);
- the member invitation guards of the project page and the e-mail lists it sends;
- the validators, edit handlers and payload builders of the four forms;
- the progress-colour bands of the project card.

Components that change their state step by step are classes. Their fields are the
component's state, and their methods are the event handlers. A server answer is a method
parameter: a success flag, or the data a fetch returns. Every service call goes into a
`calls` (or `requests` / `submitted`) log field, so a contract can say exactly which calls
a handler makes and in what order. Pure helpers are functions, and lemmas state their
properties.

JavaScript details that the model writes out:

- Times are integer milliseconds with an explicit `now`.
- `Math.round` is half-up rounding (`Numbers.RoundDiv`) and `Math.ceil` of a quotient is
  `Numbers.CeilDiv`.
- `localeCompare` is code-unit lexicographic order, and `toLowerCase` maps ASCII letters.
- `trim` and the regular expression class `\s` use the JavaScript white-space set.
- An array sort with the source's comparator is an insertion sort, proved stable like
  `Array.prototype.sort` (`TaskHelpers.SortTasksStable`). Where the comparator is
  consistent, any stable sort gives the same order; where it is not, see "Left out".
- A value that JavaScript treats as falsy (an empty or missing string) is `""`. Missing
  numbers, due dates and assignees are `Option`s.

Some behaviour of the source is surprising. The model keeps it as written:

- `src/utils/taskHelpers.js` compares statuses with the display strings `To Do`,
  `In Progress` and `Completed`. The board and the sort use the keys `todo`, `inprogress`
  and `completed`. So for tasks in board keys, `groupTasksByStatus` returns empty groups,
  `calculateProgress` returns 0 and `isTaskOverdue` ignores completion
  (`TaskHelpers.BoardKeysAreNotGrouped`).
- Title length is checked on the untrimmed title, so three spaces and two letters pass
  (`FormRules.PaddedShortTitlePasses`).
- The add-member handler compares the untrimmed value against the members' e-mails while
  its blank check trims it, so the handler accepts an existing member's e-mail behind a
  leading space (`ProjectPage.UntrimmedDuplicateSlipsThrough`). The invite field is an
  `<input type="email">`, whose value sanitization strips such spaces from typed input, so
  the case needs a value set by other means.
- The board renders its task modal without `isOwner`, so the modal always builds the
  owner's payload (`KanbanBoard.BoardModalSendsAssignment`).
- The dashboard shows members + 1 people per project, while the project card shows the
  members alone (`ProjectPage.DashboardCountsOwner`).

## Model

| member | source | states |
|---|---|---|
| KanbanBoard.FetchedTasks | src/components/kanban/KanbanBoard.jsx:26-36 | after a fetch, the tasks are the server's list, `[]` when it sent none, and unchanged when the fetch failed |
| KanbanBoard.Column | src/components/kanban/KanbanBoard.jsx:141-142 | a column holds exactly the tasks whose status equals its key, in board order |
| KanbanBoard.MoveTask | src/components/kanban/KanbanBoard.jsx:55-60 | the optimistic update keeps the length and the order; each task with the dragged `_id` takes the new status, and every other task stays as it was |
| KanbanBoard.MoveTaskTargetColumn | src/components/kanban/KanbanBoard.jsx:52-60 | after a move, the dragged task is in the target column and in no other column |
| KanbanBoard.MoveTaskKeepsOthers | src/components/kanban/KanbanBoard.jsx:56-58 | a task with another id keeps its position and its value |
| KanbanBoard.MoveTaskIdempotent | src/components/kanban/KanbanBoard.jsx:55-60 | moving the same task to the same column twice gives the same list as moving it once |
| KanbanBoard.MoveTaskSameColumn | src/components/kanban/KanbanBoard.jsx:47-60 | a drop into the column the task is already in, at another index, leaves the tasks unchanged |
| KanbanBoard.MoveTaskKeepsBoard | src/components/kanban/KanbanBoard.jsx:16-20 | a drop on one of the three columns keeps every task on the board: the three columns together still hold all tasks |
| KanbanBoard.BoardModalSendsAssignment | src/components/kanban/KanbanBoard.jsx:158-168 | the board's modal has no `isOwner` prop, so creating or editing, by owner or member, the payload carries the assignee chosen in the form, or none when the field is empty |
| KanbanBoard.Board.constructor | src/components/kanban/KanbanBoard.jsx:10-14 | the initial state: no tasks, loading, the modal closed, the `todo` column selected |
| KanbanBoard.Board.FetchTasks | src/components/kanban/KanbanBoard.jsx:26-36 | one `getTasksByProject` call; the tasks become `FetchedTasks`; loading ends |
| KanbanBoard.Board.HandleDragEnd | src/components/kanban/KanbanBoard.jsx:38-72 | a drop with no destination, or on its own place, changes nothing and calls nothing; otherwise `MoveTask` and exactly one `updateTaskStatus` call; on failure, one refetch that replaces the tasks |
| KanbanBoard.Board.HandleAddTask | src/components/kanban/KanbanBoard.jsx:74-78 | selects the column, clears the edited task and opens the modal |
| KanbanBoard.Board.HandleEditTask | src/components/kanban/KanbanBoard.jsx:80-83 | opens the modal on the task |
| KanbanBoard.Board.CloseModal | src/components/kanban/KanbanBoard.jsx:160-163 | closes the modal and forgets the edited task |
| KanbanBoard.Board.HandleDeleteTask | src/components/kanban/KanbanBoard.jsx:85-95 | nothing without confirmation; otherwise one delete call, then a refetch only on success |
| KanbanBoard.Board.HandleSubmitTask | src/components/kanban/KanbanBoard.jsx:97-113 | update when a task is being edited, else create; on success a refetch and the modal closed; on failure nothing else changes and the error is rethrown |
| TaskHelpers.DaysUntilDue | src/utils/taskHelpers.js:28-30 | the days until the due date, rounded up: the least `d` with `due - now <= d` days |
| TaskHelpers.PriorityBands | src/utils/taskHelpers.js:25-36 | `normal` without a due date; otherwise `overdue`, `urgent`, `high` or `normal` by the day thresholds 0, 1 and 3 |
| TaskHelpers.OverdueAgreesWithPriority | src/utils/taskHelpers.js:17-36 | an overdue task has priority `overdue` or `urgent`; an `overdue` priority on a task that is not `Completed` means the task is overdue |
| TaskHelpers.LessIrreflexive | src/utils/taskHelpers.js:65-86 | the sort comparator never puts a task strictly before itself |
| TaskHelpers.LessTransitive | src/utils/taskHelpers.js:65-86 | the comparator's strict order is transitive for every key |
| TaskHelpers.Insert | src/utils/taskHelpers.js:64 | one insertion step adds exactly the new task |
| TaskHelpers.SortTasks | src/utils/taskHelpers.js:63-88 | the result is a permutation of the input (same multiset and length) |
| TaskHelpers.InsertSorted | src/utils/taskHelpers.js:64 | inserting into a sorted list keeps it sorted |
| TaskHelpers.SortTasksSorted | src/utils/taskHelpers.js:63-88 | the result is sorted by the chosen comparator |
| TaskHelpers.SortKeyOf | src/utils/taskHelpers.js:63-86 | each of `dueDate`, `title`, `status`, `priority` selects its own comparator and no other label does; `createdAt` selects newest first |
| TaskHelpers.SortByLabelOrder | src/utils/taskHelpers.js:63-86 | `sortTasks` by label: `dueDate`, `title`, `status` (every status a board key) and `priority` each give their order; `createdAt`, the default, and any other label give newest first |
| TaskHelpers.SortTasksOrder | src/utils/taskHelpers.js:66-85 | by due date: dated tasks first and ascending; by title: ascending; by status, when every status is a board key: `todo` < `inprogress` < `completed`; by priority: most pressing first; default: newest first |
| TaskHelpers.SortTasksPermutes | src/utils/taskHelpers.js:63-64 | sorting neither drops nor adds a task |
| TaskHelpers.LessSplits | src/utils/taskHelpers.js:65-86 | the comparator is a strict weak order: whatever goes before `c` and `b`, `a` goes before `b` or `b` before `c` (for `status`, among board keys) |
| TaskHelpers.SortTasksStable | src/utils/taskHelpers.js:63-64 | the sort is stable: for every task `t`, the tasks the comparator ties with `t` come out in their input order (for `status`, when every status is a board key) |
| TaskHelpers.FilterTasks | src/utils/taskHelpers.js:91-114 | the result is the order-preserving subsequence of the tasks that pass every set filter |
| TaskHelpers.FilterTasksEffects | src/utils/taskHelpers.js:92-110 | a status filter other than `all` keeps only that status; an assignee filter keeps only tasks assigned to that id; a search keeps only tasks whose lower-cased title or description contains the lower-cased query; no filters, or `all`, keep everything |
| TaskHelpers.GroupingPartitions | src/utils/taskHelpers.js:117-123 | each group holds exactly the tasks with its display status; a task lands in at most one group, and in none when its status is not a display string |
| TaskHelpers.CalculateProgress | src/utils/taskHelpers.js:126-131 | 0 for no tasks; otherwise the rounded percentage of `Completed` tasks, always within 0..100 |
| TaskHelpers.ProgressAllCompleted | src/utils/taskHelpers.js:126-131 | all tasks `Completed` gives 100 |
| TaskHelpers.ProgressNoneCompleted | src/utils/taskHelpers.js:126-131 | no `Completed` task gives 0 |
| TaskHelpers.BoardKeysAreNotGrouped | src/utils/taskHelpers.js:3-7 | tasks with board-key statuses fall in no group, give progress 0, and count as overdue once past due, even when completed |
| TaskList.OverdueMarkersAgree | src/components/tasks/TaskList.jsx:48-50 | the list's overdue marker (key `completed`) agrees with `isTaskOverdue` (display `Completed`) except on tasks completed under the board key |
| TaskList.FilteredTasks | src/components/tasks/TaskList.jsx:52-55 | `all` keeps every task; any other filter keeps exactly the tasks with that status, in order |
| TaskList.SortedTasks | src/components/tasks/TaskList.jsx:57-68 | the sorted copy is a permutation of the filtered tasks |
| TaskList.SortedTasksOrder | src/components/tasks/TaskList.jsx:58-67 | by `dueDate`: dated tasks first and ascending; by `title`: ascending; anything else: newest first |
| TaskList.ButtonCounts | src/components/tasks/TaskList.jsx:83-113 | the three status counts add up to at most the task count, and to exactly it iff every status is one of the three keys |
| Tasks.WithStatus | src/components/kanban/KanbanBoard.jsx:142 | a status filter keeps exactly the tasks with that status, each as often as before, in order |
| Tasks.StatusCountsPartition | src/components/tasks/TaskList.jsx:93-113 | three different statuses select at most all tasks, and exactly all iff every task has one of them |
| Projects.ReplaceById | src/components/dashboard/Dashboard.jsx:35-39 | same length; entries with the updated id become the update, the others are unchanged |
| Projects.ReplaceByIdAbsent | src/components/dashboard/Dashboard.jsx:36-38 | an update for an absent id changes nothing |
| Projects.ReplaceByIdNoInsert | src/components/dashboard/Dashboard.jsx:36-38 | every entry afterwards is the update or an old entry, and the update appears iff its id was present |
| Projects.ReplaceByIdIdempotent | src/components/dashboard/Dashboard.jsx:35-39 | applying the same update twice equals applying it once |
| Projects.RemoveById | src/context/ProjectContext.jsx:21-23 | keeps exactly the entries with another id, in order |
| Projects.RemoveByIdIdempotent | src/context/ProjectContext.jsx:21-23 | removing twice equals removing once |
| Projects.RemoveByIdAbsent | src/context/ProjectContext.jsx:21-23 | removing an absent id changes nothing |
| Projects.RemoveByIdCounts | src/context/ProjectContext.jsx:21-23 | afterwards no entry has the removed id, and every other id keeps its number of entries |
| ProjectStore.ProjectContext.constructor | src/context/ProjectContext.jsx:6-7 | no current project and no projects |
| ProjectStore.ProjectContext.UpdateProject | src/context/ProjectContext.jsx:9-11 | sets the current project and leaves the list alone |
| ProjectStore.ProjectContext.UpdateProjects | src/context/ProjectContext.jsx:13-15 | replaces the list wholesale |
| ProjectStore.ProjectContext.AddProject | src/context/ProjectContext.jsx:17-19 | appends at the end, keeping the earlier entries in order; the id's entry count grows by one |
| ProjectStore.ProjectContext.RemoveProject | src/context/ProjectContext.jsx:21-23 | the list becomes `RemoveById` of the old one: no entry with the id is left, and the rest keep their order |
| ProjectStore.AddKeepsDuplicates | src/context/ProjectContext.jsx:17-19 | adding a project whose id is already present yields two entries with that id |
| DashboardPage.Dashboard.constructor | src/components/dashboard/Dashboard.jsx:12-16 | the initial state: no projects, loading, an empty create form |
| DashboardPage.Dashboard.FetchProjects | src/components/dashboard/Dashboard.jsx:49-60 | one `getAllProjects` call; the list becomes the server's (`[]` if none) and stays on failure; loading ends |
| DashboardPage.Dashboard.HandleProjectUpdated | src/components/dashboard/Dashboard.jsx:32-40 | the list becomes `ReplaceById` of the old one: same length, no insertion |
| DashboardPage.Dashboard.HandleCreateProject | src/components/dashboard/Dashboard.jsx:62-82 | a title that is blank after trimming changes nothing and calls nothing; otherwise one create call; on success the project is prepended, the modal closed and the form reset |
| DashboardPage.TotalTasks | src/components/dashboard/Dashboard.jsx:95 | the sum of task counts, missing counts taken as 0, is never negative when the counts are not |
| DashboardPage.TotalTasksAppend | src/components/dashboard/Dashboard.jsx:95 | one more project adds its task count to the total, a missing count adding 0 |
| DashboardPage.CompletedOfBounds | src/components/dashboard/Dashboard.jsx:97 | a project's rounded completed count lies between 0 and its task count |
| DashboardPage.CompletedAtMostTotal | src/components/dashboard/Dashboard.jsx:95-99 | the completed-task total lies between 0 and the task total |
| DashboardPage.AverageCompletion | src/components/dashboard/Dashboard.jsx:100-102 | 0 with no projects; otherwise the mean percentage rounded half-up |
| DashboardPage.AverageCompletionBounds | src/components/dashboard/Dashboard.jsx:100-102 | with percentages in 0..100 the average is in 0..100 |
| DashboardPage.PeopleCount | src/components/dashboard/Dashboard.jsx:252 | the people count is the member count plus one for the owner; `ProjectPage.DashboardCountsOwner` relates it to the page and the card |
| ProjectCardView.GradientBands | src/components/dashboard/ProjectCard.jsx:13-18 | green iff at least 75, blue iff in 50..74, yellow iff in 25..49, red iff below 25 |
| ProjectCardView.CardOf | src/components/dashboard/ProjectCard.jsx:8-11 | missing counters and percentage show as 0; the badge shows iff the percentage is 100; the menu iff the user owns the project; the member count without the owner; the gradient is that of the shown percentage (`GradientBands`) |
| ProjectCardView.BadgeImpliesGreen | src/components/dashboard/ProjectCard.jsx:110 | a card with the completed badge is green |
| ProjectPage.MemberEmails | src/components/projects/ProjectDetail.jsx:69 | the members' e-mails, one per member, in order |
| ProjectPage.CheckNewMember | src/components/projects/ProjectDetail.jsx:47-72 | the guards in order (blank after trimming, format, exact member match, owner match), the first failure winning; when accepted, the list sent is the member e-mails followed by the new one |
| ProjectPage.AcceptedEmailIsNew | src/components/projects/ProjectDetail.jsx:57-72 | an accepted e-mail matches the format, is not the owner's and is no member's; it is appended last |
| ProjectPage.UntrimmedDuplicateSlipsThrough | src/components/projects/ProjectDetail.jsx:47-60 | the handler accepts `" mia@x.io"` although member `mia@x.io` exists |
| ProjectPage.RemainingEmails | src/components/projects/ProjectDetail.jsx:88-90 | the list sent on removal holds exactly the e-mails of members with another `_id` |
| ProjectPage.RemainingEmailsDropsOne | src/components/projects/ProjectDetail.jsx:88-90 | when ids are unique, removal sends every other member's e-mail in order |
| ProjectPage.MemberCreatesOnBoardAsOwner | src/components/projects/ProjectDetail.jsx:210-214 | the page's owner test (line 114) reaches the board but not its task modal: everyone creating a task there sends the chosen assignee or none; for the owner that is the payload the test would give, while a user who is not the owner sends it instead of the self-assignment a member's modal would send |
| ProjectPage.AllMembers | src/components/projects/ProjectDetail.jsx:121-122 | the owner first, then the members; the total is one more than the member count, as `ProjectPage.DashboardCountsOwner` relates to the dashboard and the card |
| ProjectPage.DashboardCountsOwner | src/components/dashboard/ProjectCard.jsx:123 | the dashboard's people count equals the page's member total, and both are one more than the card's member count |
| ProjectPage.MemberPanel.constructor | src/components/projects/ProjectDetail.jsx:18-20 | an empty e-mail field and the form hidden |
| ProjectPage.MemberPanel.HandleAddMember | src/components/projects/ProjectDetail.jsx:44-83 | a failing guard changes nothing and calls nothing; otherwise one update with the new list; on success the field is cleared, the form hidden and the project fetched again |
| ProjectPage.MemberPanel.HandleRemoveMember | src/components/projects/ProjectDetail.jsx:85-103 | nothing without confirmation; otherwise one update with `RemainingEmails`, then a fetch on success |
| EmailFormat.IsEmail | src/components/projects/ProjectDetail.jsx:52 | the unanchored test of `\S+@\S+\.\S+`: some `@` with a non-space before it and a `.` later, with only non-spaces between them and a non-space after the dot |
| EmailFormat.BlankIsNotEmail | src/components/auth/Login.jsx:26-30 | a blank string never passes the format |
| EmailFormat.EmailLength | src/components/auth/Signup.jsx:34 | a string that passes has at least 5 characters |
| EmailFormat.PaddedEmailMatches | src/components/auth/Signup.jsx:34 | the test is unanchored: surrounding spaces or a trailing word still pass, and a missing part fails |
| FormRules.TitleError | src/components/tasks/TaskModal.jsx:44-50 | no message iff the trimmed title is not empty and the raw length is within 3..100; a blank title gets the required message, a shorter one the too-short message, a longer one the too-long message |
| FormRules.PaddedShortTitlePasses | src/components/projects/CreateProjectModal.jsx:27-33 | `"   ab"` passes, although it trims to two letters |
| FormRules.EmailError | src/components/auth/Login.jsx:26-30 | no message iff the e-mail matches the format; an empty e-mail gets the required message, any other failing one the format message |
| FormRules.PasswordError | src/components/auth/Login.jsx:32-36 | no message iff the password has at least 6 characters; an empty one gets the required message, one of 1 to 5 characters the length message |
| TaskModalForm.InitialTaskForm | src/components/tasks/TaskModal.jsx:18-37 | editing copies the task's fields, with `""` and `todo` defaults; creating gives a blank form in the column's status |
| TaskModalForm.WithFieldOnlyThatField | src/components/tasks/TaskModal.jsx:56-61 | an edit sets its field and leaves every other field unchanged |
| TaskModalForm.SubmitData | src/components/tasks/TaskModal.jsx:88-103 | trimmed title and description; an empty due date is left out. The owner sends the chosen assignee or none; a member creating a task assigns themself (`_id`, else `id`); a member editing sends no assignee |
| TaskModalForm.ValidFormSendsTitle | src/components/tasks/TaskModal.jsx:44-46 | a form that passes validation sends a non-empty title |
| TaskModalForm.SaveErrorMessage | src/components/tasks/TaskModal.jsx:111-113 | the server's message, else the error's, else the default; never empty |
| TaskModalForm.TaskModal.constructor | src/components/tasks/TaskModal.jsx:8-16 | an empty form in `todo`, no errors |
| TaskModalForm.TaskModal.Open | src/components/tasks/TaskModal.jsx:18-39 | the form becomes `InitialTaskForm` and the errors are cleared |
| TaskModalForm.TaskModal.HandleChange | src/components/tasks/TaskModal.jsx:56-75 | sets the field; clears that field's message and the backend message |
| TaskModalForm.TaskModal.ValidateForm | src/components/tasks/TaskModal.jsx:41-54 | records the title message alone, and is valid iff the title rule passes |
| TaskModalForm.TaskModal.HandleSubmit | src/components/tasks/TaskModal.jsx:77-123 | an invalid form never reaches `onSubmit`; a valid one submits `SubmitData` once; success resets the form and closes the modal; failure sets only the backend message and keeps the form |
| ProjectModalForm.DescriptionError | src/components/projects/CreateProjectModal.jsx:35-37 | the too-long message iff the description exceeds 500 characters, none otherwise |
| ProjectModalForm.ProjectFormErrors | src/components/projects/CreateProjectModal.jsx:24-41 | the title and description rules, each checked on its own |
| ProjectModalForm.ProjectFormValidity | src/components/projects/CreateProjectModal.jsx:39-40 | valid iff no message was recorded, i.e. both rules pass |
| ProjectModalForm.InitialProjectForm | src/components/projects/CreateProjectModal.jsx:12-22 | copies title and description when editing; otherwise a blank form |
| ProjectModalForm.ProjectModal.constructor | src/components/projects/CreateProjectModal.jsx:5-10 | an empty form, no errors |
| ProjectModalForm.ProjectModal.Open | src/components/projects/CreateProjectModal.jsx:12-22 | the form becomes `InitialProjectForm` and the errors are cleared |
| ProjectModalForm.ProjectModal.HandleChange | src/components/projects/CreateProjectModal.jsx:43-55 | sets the field and clears only that field's message |
| ProjectModalForm.ProjectModal.ValidateForm | src/components/projects/CreateProjectModal.jsx:24-41 | records `ProjectFormErrors` and reports validity |
| ProjectModalForm.ProjectModal.HandleSubmit | src/components/projects/CreateProjectModal.jsx:57-74 | an invalid form is not submitted; a valid one is submitted once; on success the form is reset and `onClose` called; on failure the form is kept |
| SignupPage.NameError | src/components/auth/Signup.jsx:26-30 | no message iff the name has at least 2 characters; an empty name gets the required message, a one-character name the length message |
| SignupPage.ConfirmError | src/components/auth/Signup.jsx:44-48 | no message iff the confirmation is given and equals the password; an empty one gets its own message, a differing one the mismatch message |
| SignupPage.SignupFormErrors | src/components/auth/Signup.jsx:23-51 | one message slot per field, filled by that field's rule |
| SignupPage.SignupValidity | src/components/auth/Signup.jsx:23-51 | valid iff the name has 2 characters, the e-mail matches, the password has 6 characters and the confirmation equals it |
| SignupPage.PayloadOf | src/components/auth/Signup.jsx:77 | the payload carries name, e-mail and password |
| SignupPage.PayloadIgnoresConfirmation | src/components/auth/Signup.jsx:77 | forms that differ only in the confirmation send the same payload |
| SignupPage.Signup.constructor | src/components/auth/Signup.jsx:9-18 | an empty form, no errors, not loading |
| SignupPage.Signup.HandleChange | src/components/auth/Signup.jsx:54-66 | sets the field and clears only that field's message |
| SignupPage.Signup.ValidateForm | src/components/auth/Signup.jsx:23-52 | records every field's message and reports validity |
| SignupPage.Signup.HandleSubmit | src/components/auth/Signup.jsx:68-87 | an invalid form sends nothing; a valid one sends the payload without the confirmation once, and goes to the dashboard on success |
| LoginPage.RedirectTarget | src/components/auth/Login.jsx:21 | the `from` path when present, else `/dashboard` |
| LoginPage.LoginFormErrors | src/components/auth/Login.jsx:23-40 | the e-mail and password rules, with no backend message |
| LoginPage.LoginValidity | src/components/auth/Login.jsx:38-39 | valid iff the e-mail matches and the password has 6 characters |
| LoginPage.RefusalMessage | src/components/auth/Login.jsx:80 | the server's message, else the default message |
| LoginPage.Login.constructor | src/components/auth/Login.jsx:9-15 | an empty form, no errors, not loading |
| LoginPage.Login.HandleChange | src/components/auth/Login.jsx:42-61 | sets the field; clears its message and the backend message |
| LoginPage.Login.ValidateForm | src/components/auth/Login.jsx:23-40 | records both messages and reports validity |
| LoginPage.Login.HandleSubmit | src/components/auth/Login.jsx:62-95 | errors are cleared before the one request; on success the page goes to `from`; on failure only the backend message is set, the password is cleared and the e-mail kept |
| LoginPage.RefusedFormNeedsPassword | src/components/auth/Login.jsx:85-89 | after a refusal the password rule fails with the required message, while the e-mail's verdict is unchanged |

## Left out

- Network I/O, promises and React's batching of state updates. A handler runs to completion in one step, and the server's answer is a parameter. Work that the source does not await (the refetch after a move, delete or submit) is modelled as happening within the handler.
- Toasts, `console` output, confirmation dialogs and all rendering. A confirmation answer is a parameter.
- Sockets and the push-event wiring (`src/context/SocketContext.jsx` and the socket helpers), auth context internals and the service modules. `src/services` and `src/context/AuthContext.jsx` are not part of this model. A `projectUpdated` event is a call of `HandleProjectUpdated`.
- Floating point. Percentages and the rounding of `Math.round` are exact integer arithmetic (`Numbers.RoundDiv`); NaN from an invalid date is not modelled (the NaN of a missing status rank is taken as 0, as `sort` does).
- TaskHelpers.SortTasksOrder and TaskHelpers.SortByLabelOrder: the `status` order is stated only when every task's status is a key of `statusOrder`. Any other status makes the comparator return NaN, so ECMAScript calls it inconsistent and leaves the whole order, known statuses included, to the engine; the model's insertion sort is one such order.
- TaskHelpers.SortTasksStable and TaskHelpers.LessSplits: for `status` they are stated only when every status involved is a key, for the reason above; with an unknown status the comparator is no weak order and the tie classes are not defined.
- TaskHelpers.SortTasksOrder and TaskList.SortedTasksOrder: the `dueDate` comparator returns 1 for two undated tasks whichever comes first, which ECMAScript also calls inconsistent. No comparison ever puts an undated task before a dated one or two dated tasks out of order, so the model states dated-first and ascending; the order among undated tasks is the model's own.
- `localeCompare` is code-unit order, `toLowerCase` folds ASCII letters only, and string lengths count characters rather than UTF-16 code units.
- Date parsing and formatting. Dates are integer milliseconds. The `yyyy-mm-dd` day of a due date shown in the task modal is a function parameter (`isoDay`).
- The project page's `fetchProject` result and its loading state. The model records that the project is fetched again, not what comes back.
- A project whose `members` array is missing. The source throws in the member handlers; the model takes the missing array as empty.
- A missing `user` in the task modal. The source throws when a member creates a task with no user; the model always has a user record.
- The show-password toggles, the edit and delete menus of the card, `formatTaskDate` and the other presentation helpers in the core files, which compute only markup.
- `src/components/kanban/Column.jsx`, `TaskCard.jsx`, `src/components/common` and `src/App.jsx` are not part of this model (presentation and routing only).
