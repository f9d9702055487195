/**
 * The project record shared by the dashboard, the project context, the project card and
 * the project page, and the two list updates by `_id` that those components perform.
 */
module Projects {
  import opened Wrappers
  import opened Seqs

  /** A user as embedded in a project: `_id`, `name`, `email`. */
  datatype Member = Member(id: string, name: string, email: string)

  /**
   * A project as the server sends it. `id` is its `_id`; an absent `members` array is the
   * empty sequence; the three counters are present only on the dashboard listing.
   */
  datatype Project = Project(
    id: string,
    title: string,
    description: string,
    owner: Member,
    members: seq<Member>,
    taskCount: Option<int>,
    completedTaskCount: Option<int>,
    completionPercentage: Option<int>,
    isOwner: bool)

  /** The signed-in user: the login response may carry `_id`, `id`, or both. */
  datatype User = User(mongoId: Option<string>, id: Option<string>)

  /** The calls the components make through the project service, in the order they are made. */
  datatype ProjectCall =
    | GetAllProjects
    | CreateProject(title: string, description: string)
    | GetProjectById(projectId: string)
    | UpdateMembers(projectId: string, emails: seq<string>)

  /** `prev.map(p => p._id === updated._id ? updated : p)`. */
  function ReplaceById(projects: seq<Project>, updated: Project): (r: seq<Project>)
    ensures |r| == |projects|
    ensures forall i :: 0 <= i < |r| && projects[i].id == updated.id ==> r[i] == updated
    ensures forall i :: 0 <= i < |r| && projects[i].id != updated.id ==> r[i] == projects[i]
  {
    if projects == [] then []
    else
      [if projects[0].id == updated.id then updated else projects[0]]
        + ReplaceById(projects[1..], updated)
  }

  /** An update whose id is in no entry changes nothing: the update never inserts. */
  lemma ReplaceByIdAbsent(projects: seq<Project>, updated: Project)
    requires forall p :: p in projects ==> p.id != updated.id
    ensures ReplaceById(projects, updated) == projects
  {
    var r := ReplaceById(projects, updated);
    forall i | 0 <= i < |r| ensures r[i] == projects[i] {
      assert projects[i] in projects;
    }
  }

  /** Every entry of the result is the update or an entry that was there before. */
  lemma ReplaceByIdNoInsert(projects: seq<Project>, updated: Project)
    ensures forall p :: p in ReplaceById(projects, updated) ==> p == updated || p in projects
    ensures updated in ReplaceById(projects, updated) <==> exists p :: p in projects && p.id == updated.id
  {
    var r := ReplaceById(projects, updated);
    forall p | p in r ensures p == updated || p in projects {
      var i :| 0 <= i < |r| && r[i] == p;
    }
    if exists p :: p in projects && p.id == updated.id {
      var p :| p in projects && p.id == updated.id;
      var i :| 0 <= i < |projects| && projects[i] == p;
      assert r[i] == updated;
    }
    if updated in r {
      var i :| 0 <= i < |r| && r[i] == updated;
      assert projects[i] in projects && projects[i].id == updated.id;
    }
  }

  /** Applying the same update twice gives the list that applying it once gives. */
  lemma {:induction false} ReplaceByIdIdempotent(projects: seq<Project>, updated: Project)
    ensures ReplaceById(ReplaceById(projects, updated), updated) == ReplaceById(projects, updated)
  {
    var once := ReplaceById(projects, updated);
    var twice := ReplaceById(once, updated);
    forall i | 0 <= i < |once| ensures twice[i] == once[i] {
      if projects[i].id != updated.id {
        assert once[i] == projects[i];
      }
    }
  }

  /** `prev.filter(p => p._id !== projectId)`. */
  function RemoveById(projects: seq<Project>, projectId: string): (r: seq<Project>)
    ensures forall p :: p in r <==> p in projects && p.id != projectId
    ensures Subsequence(r, projects)
    ensures |r| <= |projects|
  {
    Filter((p: Project) => p.id != projectId, projects)
  }

  /** Removing twice removes nothing more than removing once. */
  lemma RemoveByIdIdempotent(projects: seq<Project>, projectId: string)
    ensures RemoveById(RemoveById(projects, projectId), projectId) == RemoveById(projects, projectId)
  {
    FilterTwice((p: Project) => p.id != projectId, projects);
  }

  /** Removing an id that no entry has changes nothing. */
  lemma RemoveByIdAbsent(projects: seq<Project>, projectId: string)
    requires forall p :: p in projects ==> p.id != projectId
    ensures RemoveById(projects, projectId) == projects
  {
    FilterAll((p: Project) => p.id != projectId, projects);
  }

  /** The number of entries that carry `projectId`. */
  function CountId(projects: seq<Project>, projectId: string): nat {
    |Filter((p: Project) => p.id == projectId, projects)|
  }

  /** Removal leaves no entry with the id, and keeps every other entry's count. */
  lemma RemoveByIdCounts(projects: seq<Project>, projectId: string, other: string)
    requires other != projectId
    ensures CountId(RemoveById(projects, projectId), projectId) == 0
    ensures CountId(RemoveById(projects, projectId), other) == CountId(projects, other)
  {
    var r := RemoveById(projects, projectId);
    FilterNone((p: Project) => p.id == projectId, r);
    RemoveKeepsOthers(projects, projectId, other);
  }

  lemma {:induction false} RemoveKeepsOthers(projects: seq<Project>, projectId: string, other: string)
    requires other != projectId
    ensures Filter((p: Project) => p.id == other, RemoveById(projects, projectId))
         == Filter((p: Project) => p.id == other, projects)
  {
    if projects != [] {
      RemoveKeepsOthers(projects[1..], projectId, other);
    }
  }
}
