/**
 * The project context: the shared `currentProject` and `projects` state and the four
 * setters every page reaches through `useProject`.
 */
module ProjectStore {
  import opened Wrappers
  import opened Seqs
  import opened Projects

  class ProjectContext {
    /** `currentProject`: `null` until a page sets it. */
    var currentProject: Option<Project>
    /** `projects`: the shared project list. */
    var projects: seq<Project>

    constructor()
      ensures currentProject == None && projects == []
    {
      currentProject := None;
      projects := [];
    }

    /** `updateProject`: sets the current project and leaves the list alone. */
    method UpdateProject(project: Option<Project>)
      modifies this
      ensures currentProject == project
      ensures projects == old(projects)
    {
      currentProject := project;
    }

    /** `updateProjects`: replaces the list wholesale. */
    method UpdateProjects(projectsList: seq<Project>)
      modifies this
      ensures projects == projectsList
      ensures currentProject == old(currentProject)
    {
      projects := projectsList;
    }

    /** `addProject`: appends, keeping every earlier entry in order and without deduplicating. */
    method AddProject(project: Project)
      modifies this
      ensures projects == old(projects) + [project]
      ensures CountId(projects, project.id) == CountId(old(projects), project.id) + 1
      ensures currentProject == old(currentProject)
    {
      FilterAppend((p: Project) => p.id == project.id, projects, project);
      projects := projects + [project];
    }

    /** `removeProject`: drops every entry with the id, keeping the rest in order. */
    method RemoveProject(projectId: string)
      modifies this
      ensures projects == RemoveById(old(projects), projectId)
      ensures forall p :: p in projects ==> p.id != projectId
      ensures Subsequence(projects, old(projects))
      ensures currentProject == old(currentProject)
    {
      projects := RemoveById(projects, projectId);
    }
  }

  /** Adding a project whose id is already listed leaves two entries with that id. */
  lemma AddKeepsDuplicates(projects: seq<Project>, project: Project)
    requires exists p :: p in projects && p.id == project.id
    ensures CountId(projects + [project], project.id) >= 2
  {
    var p :| p in projects && p.id == project.id;
    FilterAppend((q: Project) => q.id == project.id, projects, project);
    assert p in Filter((q: Project) => q.id == project.id, projects);
  }
}
