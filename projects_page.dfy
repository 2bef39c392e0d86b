/** The project list page: deleting projects and the create/edit modal. */
module ProjectsPage {
  import opened Wrappers
  import opened Types
  import opened Seqs
  import MockData

  /**
   * The submitted modal form. `progress` is the `parseInt` of the number input (None when it does
   * not parse); the status select only offers the five statuses.
   */
  datatype ProjectForm = ProjectForm(
    name: string,
    location: string,
    client: string,
    status: ProjectStatus,
    progress: Option<int>,
    startDate: Instant,
    endDate: Instant,
    description: string,
    pcccType: string)

  /** `parseInt(data.progress) || 0`, with no clamp to 0..100. */
  function ProgressOf(parsed: Option<int>): (n: int)
    ensures parsed.Some? ==> n == parsed.value
    ensures parsed.None? ==> n == 0
  {
    parsed.GetOr(0)
  }

  /** `editingProject?.id || freshId`: an empty id counts as none. */
  function SavedId(editing: Option<Project>, freshId: Id): (id: Id)
    ensures editing.Some? && editing.value.id != "" ==> id == editing.value.id
    ensures editing.None? || editing.value.id == "" ==> id == freshId
  {
    if editing.Some? && editing.value.id != "" then editing.value.id else freshId
  }

  /** `projectData`: every field from the form, the id as SavedId says. */
  function ProjectData(f: ProjectForm, id: Id): (p: Project)
    ensures p.id == id && p.progress == ProgressOf(f.progress) && p.status == f.status
    ensures p.name == f.name && p.location == f.location && p.client == f.client
    ensures p.startDate == f.startDate && p.endDate == f.endDate
    ensures p.description == f.description && p.pcccType == f.pcccType
  {
    Project(id, f.name, f.location, f.client, f.status, ProgressOf(f.progress), f.startDate, f.endDate, f.description, f.pcccType)
  }

  /** The projects after `handleSave`. */
  function Saved(ps: seq<Project>, editing: Option<Project>, f: ProjectForm, freshId: Id): (r: seq<Project>)
    ensures editing.Some? ==> |r| == |ps|
    ensures editing.Some? ==>
      forall i :: 0 <= i < |ps| ==> r[i] == (if ps[i].id == editing.value.id then ProjectData(f, SavedId(editing, freshId)) else ps[i])
    ensures editing.None? ==> r == [ProjectData(f, freshId)] + ps
  {
    match editing
    case Some(e) => MapById(ps, ProjectKey, e.id, (p: Project) => ProjectData(f, SavedId(editing, freshId)))
    case None => [ProjectData(f, freshId)] + ps
  }

  /** An edit keeps the length and the id of every project when the edited id is not empty. */
  lemma EditKeepsIds(ps: seq<Project>, e: Project, f: ProjectForm, freshId: Id)
    requires e.id != ""
    ensures var r := Saved(ps, Some(e), f, freshId);
      |r| == |ps| && forall i :: 0 <= i < |ps| ==> r[i].id == ps[i].id
  {
  }

  /** A project whose id is empty is given the fresh id when edited. */
  lemma EditOfEmptyIdRenames(ps: seq<Project>, e: Project, f: ProjectForm, freshId: Id, i: nat)
    requires e.id == "" && i < |ps| && ps[i].id == ""
    ensures Saved(ps, Some(e), f, freshId)[i].id == freshId
  {
  }

  /** A created project comes first with the fresh id, ahead of all the earlier ones. */
  lemma CreatePrepends(ps: seq<Project>, f: ProjectForm, freshId: Id)
    requires forall i :: 0 <= i < |ps| ==> ps[i].id != freshId
    ensures var r := Saved(ps, None, f, freshId);
      |r| == |ps| + 1 && r[0].id == freshId && r[1..] == ps &&
      |Filter(r, (p: Project) => p.id == freshId)| == 1
  {
    var r := Saved(ps, None, f, freshId);
    assert r[1..] == ps;
    FilterNone(ps, (p: Project) => p.id == freshId);
  }

  class ProjectsState {
    var projects: seq<Project>
    var modalOpen: bool
    var editing: Option<Project>

    constructor ()
      ensures projects == MockData.MockProjects && !modalOpen && editing == None
    {
      projects := MockData.MockProjects;
      modalOpen := false;
      editing := None;
    }

    /** `handleDelete(id)` once the confirmation dialog answered `confirmed`. */
    method Delete(id: Id, confirmed: bool)
      modifies this
      ensures projects == if confirmed then Without(old(projects), ProjectKey, id) else old(projects)
      ensures modalOpen == old(modalOpen) && editing == old(editing)
    {
      if confirmed {
        projects := Without(projects, ProjectKey, id);
      }
    }

    /** `handleEdit(project)` */
    method OpenEdit(p: Project)
      modifies this
      ensures editing == Some(p) && modalOpen && projects == old(projects)
    {
      editing := Some(p);
      modalOpen := true;
    }

    /** The "new project" button. */
    method OpenCreate()
      modifies this
      ensures editing == None && modalOpen && projects == old(projects)
    {
      editing := None;
      modalOpen := true;
    }

    /** The close and cancel buttons: the modal hides, the edited project stays remembered. */
    method CloseModal()
      modifies this
      ensures !modalOpen && editing == old(editing) && projects == old(projects)
    {
      modalOpen := false;
    }

    /** `handleSave`: replace the edited project or prepend a new one, then close and forget. */
    method Save(f: ProjectForm, freshId: Id)
      requires forall i :: 0 <= i < |projects| ==> projects[i].id != freshId
      modifies this
      ensures projects == Saved(old(projects), old(editing), f, freshId)
      ensures !modalOpen && editing == None
    {
      var data := ProjectData(f, SavedId(editing, freshId));
      if editing.Some? {
        var e := editing.value;
        projects := MapById(projects, ProjectKey, e.id, (p: Project) => data);
      } else {
        projects := [data] + projects;
      }
      modalOpen := false;
      editing := None;
    }
  }
}
