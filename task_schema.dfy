/** The task document: its status and approval enumerations, its defaults,
    its required fields and the 0..100 bounds on progress. */
module TaskSchema {
  import opened Common

  datatype TaskStatus = Pending | InProgress | Review | Completed

  datatype ApprovalStatus = Pending | Approved | Rejected

  datatype Task = Task(
    title: string,
    description: Option<string>,
    project: Id,
    assignedTo: Id,
    deadline: Time,
    status: TaskStatus,
    progress: int,
    drawingUrl: Option<string>,
    approvalStatus: ApprovalStatus,
    approvalNotes: Option<string>)

  /** The body of a create request; the schema fills in what it omits. */
  datatype TaskDraft = TaskDraft(
    title: string,
    description: Option<string>,
    project: Option<Id>,
    assignedTo: Option<Id>,
    deadline: Option<Time>,
    status: Option<TaskStatus>,
    progress: Option<int>,
    drawingUrl: Option<string>,
    approvalStatus: Option<ApprovalStatus>,
    approvalNotes: Option<string>)

  const MinProgress: int := 0
  const MaxProgress: int := 100
  const DefaultProgress: int := 0

  predicate ProgressInBounds(progress: int) {
    MinProgress <= progress <= MaxProgress
  }

  /** What schema validation checks when a task is saved: the required title
      is non-empty and progress lies within its bounds. */
  predicate SchemaValid(t: Task) {
    t.title != "" && ProgressInBounds(t.progress)
  }

  /** Whether a draft passes validation once the defaults are applied. */
  predicate DraftValid(d: TaskDraft) {
    d.title != "" && d.project.Some? && d.assignedTo.Some? && d.deadline.Some?
    && ProgressInBounds(d.progress.GetOr(DefaultProgress))
  }

  /** Creating a task: apply the defaults, then validate; a failed
      validation is a 400 and stores nothing. */
  function NewTask(d: TaskDraft): (r: Result<Task>)
    ensures r.Ok? <==> DraftValid(d)
    ensures r.Err? ==> r.failure.status == 400
    ensures r.Ok? ==> SchemaValid(r.value)
    ensures r.Ok? ==>
      && r.value.project == d.project.value
      && r.value.assignedTo == d.assignedTo.value
      && (d.status.None? ==> r.value.status == TaskStatus.Pending)
      && (d.progress.None? ==> r.value.progress == 0)
      && (d.approvalStatus.None? ==> r.value.approvalStatus == ApprovalStatus.Pending)
  {
    if !DraftValid(d) then Err(Failure(400, "Task validation failed"))
    else Ok(Task(d.title, d.description, d.project.value, d.assignedTo.value, d.deadline.value,
                 d.status.GetOr(TaskStatus.Pending), d.progress.GetOr(DefaultProgress), d.drawingUrl,
                 d.approvalStatus.GetOr(ApprovalStatus.Pending), d.approvalNotes))
  }

  /** The convention the review handlers establish between the approval
      outcome and the execution state. */
  predicate ApprovalConsistent(t: Task) {
    && (t.approvalStatus == Approved ==> t.status == Completed && t.progress == 100)
    && (t.approvalStatus == Rejected ==> t.status == InProgress && t.progress == 50)
  }
}
