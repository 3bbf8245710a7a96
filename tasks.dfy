/** The task handlers: the general update (a guarded merge with no
    recomputation and no validation), drawing submission and the review
    decision. Every handler answers 404 for a missing task before it looks
    at the caller. */
module Tasks {
  import opened Common
  import opened TaskSchema
  import opened Users

  /** updateTask: Admin, Architect, or the assignee. */
  predicate MayUpdate(actor: Actor, t: Task) {
    actor.role == Admin || actor.role == Architect || t.assignedTo == actor.id
  }

  /** submitDrawing: the assignee, or Admin. */
  predicate MaySubmit(actor: Actor, t: Task) {
    t.assignedTo == actor.id || actor.role == Admin
  }

  /** approveTask: Admin or Architect, whoever the assignee is. */
  predicate MayApprove(actor: Actor) {
    actor.role == Admin || actor.role == Architect
  }

  /** Who may approve, as a statement about roles: no Manager, no assignee rights. */
  lemma ApproversAreAdminOrArchitect(actor: Actor, t: Task)
    ensures MayApprove(actor) <==> actor.role in {Admin, Architect}
    ensures t.assignedTo == actor.id && actor.role == Manager ==> !MayApprove(actor) && MayUpdate(actor, t)
    ensures MayApprove(actor) ==> MayUpdate(actor, t)
  {
  }

  /** The body of an update request; every present field is written. */
  datatype TaskPatch = TaskPatch(
    title: Option<string>,
    description: Option<string>,
    project: Option<Id>,
    assignedTo: Option<Id>,
    deadline: Option<Time>,
    status: Option<TaskStatus>,
    progress: Option<int>,
    drawingUrl: Option<string>,
    approvalStatus: Option<ApprovalStatus>,
    approvalNotes: Option<string>)

  /** `findByIdAndUpdate(id, body)` without validators. */
  function Merge(t: Task, p: TaskPatch): Task {
    Task(p.title.GetOr(t.title),
         if p.description.Some? then p.description else t.description,
         p.project.GetOr(t.project),
         p.assignedTo.GetOr(t.assignedTo),
         p.deadline.GetOr(t.deadline),
         p.status.GetOr(t.status),
         p.progress.GetOr(t.progress),
         if p.drawingUrl.Some? then p.drawingUrl else t.drawingUrl,
         p.approvalStatus.GetOr(t.approvalStatus),
         if p.approvalNotes.Some? then p.approvalNotes else t.approvalNotes)
  }

  /** The general update path checks neither the progress bounds nor the
      approval convention: a valid, consistent, approved task can be patched
      to any progress. */
  lemma MergeSkipsValidation(t: Task, p: TaskPatch)
    requires SchemaValid(t) && ApprovalConsistent(t) && t.approvalStatus == Approved
    requires p == TaskPatch(None, None, None, None, None, None, Some(150), None, None, None)
    ensures !SchemaValid(Merge(t, p)) && !ApprovalConsistent(Merge(t, p))
    ensures Merge(t, p).status == Completed && Merge(t, p).approvalStatus == Approved
  {
  }

  class TaskDb {
    var tasks: map<Id, Task>

    constructor ()
      ensures tasks == map[]
    {
      tasks := map[];
    }

    /** createTask: `Task.create(body)`. */
    method CreateTask(newId: Id, draft: TaskDraft) returns (r: Result<Task>)
      requires newId !in tasks
      modifies this
      ensures r == NewTask(draft)
      ensures r.Ok? ==> tasks == old(tasks)[newId := r.value]
      ensures r.Err? ==> tasks == old(tasks)
    {
      r := NewTask(draft);
      if r.Ok? {
        tasks := tasks[newId := r.value];
      }
    }

    /** updateTask: 404, then the ownership/role guard (403), then the
        verbatim merge. */
    method UpdateTask(id: Id, actor: Actor, patch: TaskPatch) returns (r: Result<Task>)
      modifies this
      ensures id !in old(tasks) ==> r == Err(Failure(404, "Task not found")) && tasks == old(tasks)
      ensures id in old(tasks) && !MayUpdate(actor, old(tasks)[id]) ==>
        r == Err(Failure(403, "Not authorized to update this task")) && tasks == old(tasks)
      ensures id in old(tasks) && MayUpdate(actor, old(tasks)[id]) ==>
        r == Ok(Merge(old(tasks)[id], patch)) && tasks == old(tasks)[id := r.value]
    {
      if id !in tasks {
        return Err(Failure(404, "Task not found"));
      }
      var task := tasks[id];
      if actor.role != Admin && actor.role != Architect && task.assignedTo != actor.id {
        return Err(Failure(403, "Not authorized to update this task"));
      }
      var updated := Merge(task, patch);
      tasks := tasks[id := updated];
      r := Ok(updated);
    }

    /** submitDrawing: records the drawing and puts the task up for review.
        `save()` validates the whole task, so a task whose progress an earlier
        update pushed out of bounds cannot be submitted (500). */
    method SubmitDrawing(id: Id, actor: Actor, drawingUrl: Option<string>) returns (r: Result<Task>)
      modifies this
      ensures id !in old(tasks) ==> r == Err(Failure(404, "Task not found")) && tasks == old(tasks)
      ensures id in old(tasks) && !MaySubmit(actor, old(tasks)[id]) ==>
        r == Err(Failure(403, "Only the assigned staff can submit drawings")) && tasks == old(tasks)
      ensures id in old(tasks) && MaySubmit(actor, old(tasks)[id]) && !SchemaValid(old(tasks)[id]) ==>
        r.IsStatus(500) && tasks == old(tasks)
      ensures id in old(tasks) && MaySubmit(actor, old(tasks)[id]) && SchemaValid(old(tasks)[id]) ==>
        && r.Ok? && tasks == old(tasks)[id := r.value]
        && r.value == old(tasks)[id].(drawingUrl := drawingUrl, status := Review, approvalStatus := ApprovalStatus.Pending)
        && r.value.progress == old(tasks)[id].progress
        && SchemaValid(r.value) && ApprovalConsistent(r.value)
    {
      if id !in tasks {
        return Err(Failure(404, "Task not found"));
      }
      var task := tasks[id];
      if task.assignedTo != actor.id && actor.role != Admin {
        return Err(Failure(403, "Only the assigned staff can submit drawings"));
      }
      task := task.(drawingUrl := drawingUrl);
      task := task.(status := Review);
      task := task.(approvalStatus := ApprovalStatus.Pending);
      if !SchemaValid(task) {
        return Err(Failure(500, "Task validation failed"));
      }
      tasks := tasks[id := task];
      r := Ok(task);
    }

    /** approveTask: records the decision and its notes (absent notes clear
        the old ones); Approved completes the task at 100, Rejected sends it
        back to In Progress at 50 whatever its progress was; a Pending
        decision leaves status and progress alone. */
    method ApproveTask(id: Id, actor: Actor, decision: ApprovalStatus, notes: Option<string>) returns (r: Result<Task>)
      modifies this
      ensures id !in old(tasks) ==> r == Err(Failure(404, "Task not found")) && tasks == old(tasks)
      ensures id in old(tasks) && !MayApprove(actor) ==>
        r == Err(Failure(403, "Only Admin or Architect can approve/reject tasks")) && tasks == old(tasks)
      ensures id in old(tasks) && MayApprove(actor) ==>
        var t := old(tasks)[id];
        var decided := t.(approvalStatus := decision, approvalNotes := notes,
                          status := if decision == Approved then Completed
                                    else if decision == Rejected then InProgress else t.status,
                          progress := if decision == Approved then 100
                                      else if decision == Rejected then 50 else t.progress);
        && (SchemaValid(decided) ==> r == Ok(decided) && tasks == old(tasks)[id := decided])
        && (!SchemaValid(decided) ==> r.IsStatus(500) && tasks == old(tasks))
      ensures r.Ok? ==> ApprovalConsistent(r.value) && SchemaValid(r.value) && r.value.approvalStatus == decision
      ensures r.Ok? && decision == Approved ==> r.value.status == Completed && r.value.progress == 100
      ensures r.Ok? && decision == Rejected ==> r.value.status == InProgress && r.value.progress == 50
    {
      if id !in tasks {
        return Err(Failure(404, "Task not found"));
      }
      var task := tasks[id];
      if actor.role != Admin && actor.role != Architect {
        return Err(Failure(403, "Only Admin or Architect can approve/reject tasks"));
      }
      task := task.(approvalStatus := decision);
      task := task.(approvalNotes := notes);
      if decision == Approved {
        task := task.(status := Completed, progress := 100);
      } else if decision == Rejected {
        task := task.(status := InProgress, progress := 50);
      }
      if !SchemaValid(task) {
        return Err(Failure(500, "Task validation failed"));
      }
      tasks := tasks[id := task];
      r := Ok(task);
    }
  }

  /** The review round trip: the assignee submits, an architect approves,
      and the task ends Completed at 100 with its drawing recorded. */
  method SubmitThenApprove(db: TaskDb, id: Id, assignee: Actor, reviewer: Actor, url: string)
    returns (submitted: Result<Task>, approved: Result<Task>)
    requires id in db.tasks && db.tasks[id].assignedTo == assignee.id && SchemaValid(db.tasks[id])
    requires reviewer.role == Architect
    modifies db
    ensures submitted.Ok? && submitted.value.status == Review
    ensures approved.Ok? && approved.value.status == Completed && approved.value.progress == 100
    ensures approved.value.approvalStatus == Approved && approved.value.drawingUrl == Some(url)
    ensures db.tasks == old(db.tasks)[id := approved.value]
  {
    submitted := db.SubmitDrawing(id, assignee, Some(url));
    approved := db.ApproveTask(id, reviewer, Approved, None);
  }
}
