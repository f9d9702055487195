/**
 * The dashboard: the project list with its fetch, the `projectUpdated` push handler and
 * the create form, and the summary metrics computed over the list.
 */
module DashboardPage {
  import opened Wrappers
  import opened Strings
  import opened Numbers
  import opened Projects

  /** The create-project form held by the dashboard (`newProject`). */
  datatype NewProject = NewProject(title: string, description: string)

  /** What the list request gave back: data (possibly `null`), or a thrown error. */
  datatype ProjectsFetch = ProjectsFetched(data: Option<seq<Project>>) | ProjectsFetchFailed

  class Dashboard {
    var projects: seq<Project>
    var loading: bool
    var showCreateModal: bool
    var newProject: NewProject
    var creating: bool
    /** The project-service calls made so far. */
    var calls: seq<ProjectCall>

    constructor()
      ensures projects == [] && loading && !showCreateModal && !creating
      ensures newProject == NewProject("", "") && calls == []
    {
      projects := [];
      loading := true;
      showCreateModal := false;
      newProject := NewProject("", "");
      creating := false;
      calls := [];
    }

    /** `fetchProjects`: one list request; the list is replaced only when the request succeeds. */
    method FetchProjects(response: ProjectsFetch)
      modifies this
      ensures calls == old(calls) + [GetAllProjects]
      ensures !loading
      ensures response.ProjectsFetched? ==> projects == response.data.GetOr([])
      ensures response.ProjectsFetchFailed? ==> projects == old(projects)
      ensures showCreateModal == old(showCreateModal) && newProject == old(newProject)
      ensures creating == old(creating)
    {
      loading := true;
      calls := calls + [GetAllProjects];
      if response.ProjectsFetched? {
        projects := response.data.GetOr([]);
      }
      loading := false;
    }

    /** The `projectUpdated` listener: every entry with the same id becomes the update. */
    method HandleProjectUpdated(updated: Project)
      modifies this
      ensures projects == ReplaceById(old(projects), updated)
      ensures |projects| == |old(projects)|
      ensures forall p :: p in projects ==> p == updated || p in old(projects)
      ensures loading == old(loading) && showCreateModal == old(showCreateModal)
      ensures newProject == old(newProject) && creating == old(creating) && calls == old(calls)
    {
      ReplaceByIdNoInsert(projects, updated);
      projects := ReplaceById(projects, updated);
    }

    /**
     * `handleCreateProject`: a title that is blank after trimming stops the handler before
     * any call; otherwise one create call, and on success (`created` holds the returned
     * project) the project is put first, the modal closed and the form cleared.
     */
    method HandleCreateProject(created: Option<Project>)
      modifies this
      ensures IsBlank(old(newProject.title)) ==>
        projects == old(projects) && calls == old(calls) && newProject == old(newProject)
        && showCreateModal == old(showCreateModal) && creating == old(creating)
      ensures !IsBlank(old(newProject.title)) ==>
        calls == old(calls) + [CreateProject(old(newProject.title), old(newProject.description))]
        && !creating
      ensures !IsBlank(old(newProject.title)) && created.Some? ==>
        projects == [created.value] + old(projects) && !showCreateModal && newProject == NewProject("", "")
      ensures !IsBlank(old(newProject.title)) && created.None? ==>
        projects == old(projects) && showCreateModal == old(showCreateModal) && newProject == old(newProject)
      ensures loading == old(loading)
    {
      if Trim(newProject.title) == [] {
        return;
      }
      creating := true;
      calls := calls + [CreateProject(newProject.title, newProject.description)];
      if created.Some? {
        projects := [created.value] + projects;
        showCreateModal := false;
        newProject := NewProject("", "");
      }
      creating := false;
    }
  }

  // ---------------------------------------------------------------- metrics

  /** `totalTasks`: the sum of `taskCount`, a missing count taken as 0. */
  function TotalTasks(projects: seq<Project>): (r: int)
    ensures (forall p :: p in projects ==> p.taskCount.GetOr(0) >= 0) ==> r >= 0
  {
    if projects == [] then 0
    else projects[0].taskCount.GetOr(0) + TotalTasks(projects[1..])
  }

  /** Adding a project adds its task count, a missing one counting 0. */
  lemma {:induction false} TotalTasksAppend(projects: seq<Project>, p: Project)
    ensures TotalTasks(projects + [p]) == TotalTasks(projects) + p.taskCount.GetOr(0)
  {
    if projects != [] {
      assert (projects + [p])[1..] == projects[1..] + [p];
      TotalTasksAppend(projects[1..], p);
    } else {
      assert TotalTasks([p][1..]) == 0;
    }
  }

  /** The per-project term of `completedTasks`: `Math.round(taskCount * completionPercentage / 100)`. */
  function CompletedOf(p: Project): int {
    RoundDiv(p.taskCount.GetOr(0) * p.completionPercentage.GetOr(0), 100)
  }

  /** `completedTasks`: the per-project completed estimates, summed. */
  function CompletedTasks(projects: seq<Project>): int {
    if projects == [] then 0 else CompletedOf(projects[0]) + CompletedTasks(projects[1..])
  }

  /** The sum of `completionPercentage`, a missing percentage taken as 0. */
  function PercentageSum(projects: seq<Project>): int {
    if projects == [] then 0
    else projects[0].completionPercentage.GetOr(0) + PercentageSum(projects[1..])
  }

  /** `averageCompletion`: 0 without projects, else the rounded mean percentage. */
  function AverageCompletion(projects: seq<Project>): (r: int)
    ensures projects == [] ==> r == 0
    ensures projects != [] ==>
      |projects| * (2 * r - 1) <= 2 * PercentageSum(projects) < |projects| * (2 * r + 1)
  {
    if |projects| > 0 then RoundDiv(PercentageSum(projects), |projects|) else 0
  }

  /** A project whose counters are what the server computes: a task count and a percentage. */
  predicate WellFormedCounters(p: Project) {
    p.taskCount.GetOr(0) >= 0 && 0 <= p.completionPercentage.GetOr(0) <= 100
  }

  /** A project's completed estimate lies between 0 and its task count. */
  lemma CompletedOfBounds(p: Project)
    requires WellFormedCounters(p)
    ensures 0 <= CompletedOf(p) <= p.taskCount.GetOr(0)
  {
    var tc := p.taskCount.GetOr(0);
    var pct := p.completionPercentage.GetOr(0);
    if tc == 0 {
      RoundDivExact(0, 100, 0);
    } else {
      MulMonotone(tc, 0, pct);
      MulMonotone(tc, pct, 100);
      RoundDivBounds(tc * pct, 100, 0, tc);
    }
  }

  /** With well-formed counters the completed total never exceeds the task total. */
  lemma {:induction false} CompletedAtMostTotal(projects: seq<Project>)
    requires forall p :: p in projects ==> WellFormedCounters(p)
    ensures 0 <= CompletedTasks(projects) <= TotalTasks(projects)
  {
    if projects != [] {
      CompletedOfBounds(projects[0]);
      CompletedAtMostTotal(projects[1..]);
    }
  }

  lemma {:induction false} PercentageSumBounds(projects: seq<Project>)
    requires forall p :: p in projects ==> 0 <= p.completionPercentage.GetOr(0) <= 100
    ensures 0 <= PercentageSum(projects) <= 100 * |projects|
  {
    if projects != [] {
      PercentageSumBounds(projects[1..]);
    }
  }

  /** With percentages in [0, 100] the average is in [0, 100] too. */
  lemma AverageCompletionBounds(projects: seq<Project>)
    requires forall p :: p in projects ==> 0 <= p.completionPercentage.GetOr(0) <= 100
    ensures 0 <= AverageCompletion(projects) <= 100
  {
    if projects != [] {
      PercentageSumBounds(projects);
      RoundDivBounds(PercentageSum(projects), |projects|, 0, 100);
    }
  }

  /** The people count on a dashboard card: the members plus the owner. */
  function PeopleCount(p: Project): (n: nat)
    ensures n >= 1 && n - 1 == |p.members|
  {
    |p.members| + 1
  }
}
