/** Projects and the clients they belong to: creating a project appends its
    id to its client's project list, updating merges a patch, deleting
    removes the project and nothing else. */
module Projects {
  import opened Common

  datatype Phase =
    ConceptDesign | DesignStage | Visualization3D | ApprovalDrawings | WorkingDrawings | SiteExecution | Completion

  datatype PhaseStatus = Pending | InProgress | Completed

  /** An entry of a project's phase history; only ever written by a patch. */
  datatype PhaseEntry = PhaseEntry(name: Option<Phase>, status: PhaseStatus, startDate: Option<Time>, endDate: Option<Time>)

  datatype ProjectStatus = Active | Completed | OnHold

  datatype Project = Project(
    title: string,
    description: Option<string>,
    client: Id,
    assignedStaff: seq<Id>,
    currentPhase: Phase,
    phases: seq<PhaseEntry>,
    status: ProjectStatus)

  datatype Client = Client(
    name: string,
    email: string,
    phone: string,
    siteLocation: string,
    contractDetails: Option<string>,
    assignedProjects: seq<Id>)

  /** The body of a create request. */
  datatype ProjectDraft = ProjectDraft(
    title: string,
    description: Option<string>,
    client: Option<Id>,
    assignedStaff: seq<Id>,
    currentPhase: Option<Phase>,
    phases: seq<PhaseEntry>,
    status: Option<ProjectStatus>)

  /** The body of an update request: the fields it names are overwritten. */
  datatype ProjectPatch = ProjectPatch(
    title: Option<string>,
    description: Option<string>,
    client: Option<Id>,
    assignedStaff: Option<seq<Id>>,
    currentPhase: Option<Phase>,
    phases: Option<seq<PhaseEntry>>,
    status: Option<ProjectStatus>)

  /** The schema's required fields: a non-empty title and a client. */
  predicate Creatable(draft: ProjectDraft) {
    draft.title != "" && draft.client.Some?
  }

  /** The stored project, with the schema defaults for absent fields. */
  function NewProject(draft: ProjectDraft): (p: Project)
    requires Creatable(draft)
    ensures p.client == draft.client.value && p.title == draft.title
    ensures draft.currentPhase.None? ==> p.currentPhase == ConceptDesign
    ensures draft.status.None? ==> p.status == Active
  {
    Project(draft.title, draft.description, draft.client.value, draft.assignedStaff,
            draft.currentPhase.GetOr(ConceptDesign), draft.phases, draft.status.GetOr(Active))
  }

  /** A `findByIdAndUpdate` with the patch as its update document. */
  function Merge(p: Project, patch: ProjectPatch): Project {
    Project(patch.title.GetOr(p.title), OrElseKeep(patch.description, p.description),
            patch.client.GetOr(p.client), patch.assignedStaff.GetOr(p.assignedStaff),
            patch.currentPhase.GetOr(p.currentPhase), patch.phases.GetOr(p.phases),
            patch.status.GetOr(p.status))
  }

  function OrElseKeep(patch: Option<string>, current: Option<string>): Option<string> {
    if patch.Some? then patch else current
  }

  class ProjectDb {
    var projects: map<Id, Project>
    var clients: map<Id, Client>

    constructor (clients: map<Id, Client>)
      ensures this.projects == map[] && this.clients == clients
    {
      this.projects := map[];
      this.clients := clients;
    }

    /** createProject: insert the project, then push its id onto its client's
        list. A client id that names no client leaves every client as it was. */
    method CreateProject(newId: Id, draft: ProjectDraft) returns (r: Result<Project>)
      requires newId !in projects
      modifies this
      ensures !Creatable(draft) ==>
        r.IsStatus(400) && projects == old(projects) && clients == old(clients)
      ensures Creatable(draft) ==> r == Ok(NewProject(draft)) && projects == old(projects)[newId := r.value]
      ensures Creatable(draft) && draft.client.value in old(clients) ==>
        var c := draft.client.value;
        clients == old(clients)[c := old(clients)[c].(assignedProjects := old(clients)[c].assignedProjects + [newId])]
      ensures Creatable(draft) && draft.client.value !in old(clients) ==> clients == old(clients)
    {
      if !Creatable(draft) {
        return Err(Failure(400, "Project validation failed"));
      }
      var project := NewProject(draft);
      projects := projects[newId := project];
      var c := project.client;
      if c in clients {
        clients := clients[c := clients[c].(assignedProjects := clients[c].assignedProjects + [newId])];
      }
      r := Ok(project);
    }

    /** updateProject: a plain merge; a missing project is a 404. */
    method UpdateProject(id: Id, patch: ProjectPatch) returns (r: Result<Project>)
      modifies this
      ensures id !in old(projects) ==> r == Err(Failure(404, "Project not found")) && projects == old(projects)
      ensures id in old(projects) ==>
        r == Ok(Merge(old(projects)[id], patch)) && projects == old(projects)[id := r.value]
      ensures clients == old(clients)
    {
      if id !in projects {
        return Err(Failure(404, "Project not found"));
      }
      var updated := Merge(projects[id], patch);
      projects := projects[id := updated];
      r := Ok(updated);
    }

    /** deleteProject: removes the project; its id stays on its client's list. */
    method DeleteProject(id: Id) returns (r: Result<()>)
      modifies this
      ensures id !in old(projects) ==> r == Err(Failure(404, "Project not found")) && projects == old(projects)
      ensures id in old(projects) ==> r == Ok(()) && projects == old(projects) - {id}
      ensures clients == old(clients)
    {
      if id !in projects {
        return Err(Failure(404, "Project not found"));
      }
      projects := projects - {id};
      r := Ok(());
    }
  }

  /** Creating and then deleting a project of an existing client leaves a
      dangling id at the end of that client's list. */
  method CreateThenDelete(db: ProjectDb, newId: Id, draft: ProjectDraft)
    requires newId !in db.projects && Creatable(draft) && draft.client.value in db.clients
    modifies db
    ensures newId !in db.projects
    ensures var c := draft.client.value;
      c in db.clients && db.clients[c].assignedProjects == old(db.clients[c].assignedProjects) + [newId]
  {
    var created := db.CreateProject(newId, draft);
    var deleted := db.DeleteProject(newId);
  }
}
