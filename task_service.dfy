/**
 * Task table operations (task/api/service.py). `create_task` and `update_task` turn every
 * exception raised inside them, their own validation errors included, into
 * `ValidationError({"error": str(e)})`.
 */
module TaskService {
  import opened Wrappers
  import opened Uuids
  import opened Backend

  /** `data.get("project")`: missing, a project instance (which has `.id`), or a bare id. */
  datatype ProjectRef = NoProject | ProjectInstance(id: Uuid) | RawProjectId(rawId: Uuid)

  /** The keys of a task's data dict; None is a missing key. */
  datatype TaskData = TaskData(
    title: Option<string>, description: Option<string>, deadline: Option<int>, status: Option<string>,
    assignee: Option<Uuid>, project: ProjectRef, createdBy: Option<Uuid>)

  /** `project.id if hasattr(project, "id") else project`. */
  function ProjectId(p: ProjectRef): (id: Option<Uuid>)
    ensures p.NoProject? <==> id.None?
    ensures p.ProjectInstance? ==> id == Some(p.id)
    ensures p.RawProjectId? ==> id == Some(p.rawId)
  {
    match p
    case NoProject => None
    case ProjectInstance(id) => Some(id)
    case RawProjectId(id) => Some(id)
  }

  predicate TaskExists(db: Db, project: Uuid, title: string) {
    Exists(db.tasks, (t: TaskRow) => t.project == project && t.title == title)
  }

  /** `TaskService.is_exist`: the project id is required, then a non-empty title. */
  function IsExist(db: Db, data: TaskData): (r: Result<bool, Exc>)
    ensures ProjectId(data.project).None? ==> r == Err(DjangoValidationError(Text("project_id is required")))
    ensures ProjectId(data.project).Some? && (data.title.None? || data.title.value == "") ==>
      r == Err(DjangoValidationError(Text("title is required")))
    ensures r.Ok? <==> ProjectId(data.project).Some? && data.title.Some? && data.title.value != ""
    ensures r.Ok? ==> (r.value <==> TaskExists(db, ProjectId(data.project).value, data.title.value))
  {
    var projectId := ProjectId(data.project);
    if projectId.None? then Err(DjangoValidationError(Text("project_id is required")))
    else if data.title.None? || data.title.value == "" then Err(DjangoValidationError(Text("title is required")))
    else Ok(TaskExists(db, projectId.value, data.title.value))
  }

  /** `TaskService.get_task_by_id`. */
  function GetTaskById(db: Db, id: Uuid): (r: Result<TaskRow, Exc>)
    ensures r.Err? && r.error == NotFound("Task not found.") <==> id !in TaskIds(db.tasks)
    ensures r.Ok? ==> r.value in db.tasks && r.value.id == id
  {
    match Get(db.tasks, (t: TaskRow) => t.id == id)
    case NoRow => Err(NotFound("Task not found."))
    case OneRow(t) => Ok(t)
    case SeveralRows => Err(MultipleObjectsReturned)
  }

  /** `Task.objects.create(**data)`: a bare id for the project relation raises `ValueError`.
      An omitted text column (`title`, `description`, `status`) takes Django's default "", and
      an omitted deadline or relation is NULL in a NOT NULL column. */
  function NewTaskRow(data: TaskData, id: Uuid): Result<TaskRow, Exc> {
    if data.project.RawProjectId? then Err(ValueError("project"))
    else if data.deadline.None? || data.assignee.None? || data.project.NoProject? || data.createdBy.None? then
      Err(IntegrityError)
    else Ok(TaskRow(id, OrElse(data.title, ""), OrElse(data.description, ""), data.deadline.value,
                    OrElse(data.status, ""), data.assignee.value, data.project.id, data.createdBy.value))
  }

  const DuplicateTask: Exc := DjangoValidationError(Text("Task with this title on this project already exists."))

  /** `{"error": str(e)}` around whatever was raised. */
  function Rewrap(e: Exc): Exc {
    DjangoValidationError(Wrapped("error", e))
  }

  function CreateTaskSpec(w: World, data: TaskData, newId: Uuid): (World, Result<TaskRow, Exc>) {
    match IsExist(w.db, data)
    case Err(e) => (w, Err(Rewrap(e)))
    case Ok(found) =>
      if found then (w, Err(Rewrap(DuplicateTask)))
      else match NewTaskRow(data, newId)
        case Err(e) => (w, Err(Rewrap(e)))
        case Ok(row) =>
          var (w1, r) := Write(w, InsertTask(row));
          (w1, if r.Ok? then Ok(row) else Err(Rewrap(r.error)))
  }

  /** `TaskService.create_task`; `newId` is the primary key the new row receives. */
  method CreateTask(env: Env, data: TaskData, newId: Uuid) returns (r: Result<TaskRow, Exc>)
    modifies env
    ensures (env.State(), r) == CreateTaskSpec(old(env.State()), data, newId)
  {
    var existing := IsExist(env.db, data);
    if existing.Err? {
      return Err(Rewrap(existing.error));
    }
    if existing.value {
      return Err(Rewrap(DuplicateTask));
    }
    var row := NewTaskRow(data, newId);
    if row.Err? {
      return Err(Rewrap(row.error));
    }
    var inserted := env.Execute(InsertTask(row.value));
    r := if inserted.Ok? then Ok(row.value) else Err(Rewrap(inserted.error));
  }

  /** Every failure of `create_task` is one `ValidationError({"error": ...})` around the original
      exception, and it leaves the tables and the trace as they were. */
  lemma CreateTaskWrapsEveryError(w: World, data: TaskData, newId: Uuid)
    ensures var (w', r) := CreateTaskSpec(w, data, newId);
      r.Err? ==> w' == w && r.error.DjangoValidationError? && r.error.detail.Wrapped? && r.error.detail.field == "error"
  {
  }

  /** A task with the same project and title is refused without inserting anything. */
  lemma CreateTaskRejectsDuplicate(w: World, data: TaskData, newId: Uuid)
    requires ProjectId(data.project).Some? && data.title.Some? && data.title.value != ""
    requires TaskExists(w.db, ProjectId(data.project).value, data.title.value)
    ensures CreateTaskSpec(w, data, newId) == (w, Err(Rewrap(DuplicateTask)))
  {
  }

  /** On success exactly one row is appended: the data's values under the new key, with ""
      for an omitted description or status. */
  lemma CreateTaskInsertsOneRow(w: World, data: TaskData, newId: Uuid)
    ensures var (w', r) := CreateTaskSpec(w, data, newId);
      r.Ok? ==>
        && data.project.ProjectInstance? && data.title.Some? && data.deadline.Some?
        && data.assignee.Some? && data.createdBy.Some?
        && !TaskExists(w.db, data.project.id, data.title.value)
        && r.value == TaskRow(newId, data.title.value, OrElse(data.description, ""), data.deadline.value,
                              OrElse(data.status, ""), data.assignee.value, data.project.id, data.createdBy.value)
        && w'.db == w.db.(tasks := w.db.tasks + [r.value])
        && w'.trace == w.trace + [Inserted(Tasks, newId)]
  {
  }

  /** Omitting the description or the status does not stop the insert: the row holds "" there.
      Only a missing deadline, assignee or creator violates NOT NULL. */
  lemma CreateTaskDefaultsText(w: World, data: TaskData, newId: Uuid)
    requires data.project.ProjectInstance? && data.title.Some? && data.title.value != ""
    requires !TaskExists(w.db, data.project.id, data.title.value)
    requires newId !in TaskIds(w.db.tasks)
    ensures var (w', r) := CreateTaskSpec(w, data, newId);
      && (r.Ok? <==> data.deadline.Some? && data.assignee.Some? && data.createdBy.Some?)
      && (r.Ok? && data.description.None? ==> r.value.description == "")
      && (r.Ok? && data.status.None? ==> r.value.status == "")
      && (r.Err? ==> r == Err(Rewrap(IntegrityError)) && w' == w)
  {
  }

  // ---------------------------------------------------------------- update

  /** One `setattr(task, attr, value)`; a bare id given for a relation is refused by the
      relation's descriptor. */
  datatype TaskField =
    | SetTitle(title: string) | SetDescription(description: string) | SetDeadline(deadline: int)
    | SetStatus(status: string) | SetAssignee(assignee: Uuid) | SetProject(project: Uuid)
    | SetCreatedBy(createdBy: Uuid) | SetRawId(relation: string, rawId: Uuid)

  function AssignTask(t: TaskRow, f: TaskField): Result<TaskRow, Exc> {
    match f
    case SetTitle(x) => Ok(t.(title := x))
    case SetDescription(x) => Ok(t.(description := x))
    case SetDeadline(x) => Ok(t.(deadline := x))
    case SetStatus(x) => Ok(t.(status := x))
    case SetAssignee(x) => Ok(t.(assignee := x))
    case SetProject(x) => Ok(t.(project := x))
    case SetCreatedBy(x) => Ok(t.(createdBy := x))
    case SetRawId(rel, _) => Err(ValueError(rel))
  }

  /** The assignments in order, stopping at the first that raises. */
  function AssignAllTask(t: TaskRow, data: seq<TaskField>): Result<TaskRow, Exc> {
    if data == [] then Ok(t)
    else
      var prefix := AssignAllTask(t, data[..|data| - 1]);
      if prefix.Err? then prefix else AssignTask(prefix.value, data[|data| - 1])
  }

  function LastDeadline(data: seq<TaskField>): Option<int> {
    if data == [] then None
    else if data[|data| - 1].SetDeadline? then Some(data[|data| - 1].deadline)
    else LastDeadline(data[..|data| - 1])
  }

  predicate HasRawId(data: seq<TaskField>) {
    exists i :: 0 <= i < |data| && data[i].SetRawId?
  }

  /** The assignments fail exactly when a bare id is given for a relation; otherwise the key is
      kept and the deadline is the last one given, or the old one. */
  lemma {:induction false} AssignAllTaskResult(t: TaskRow, data: seq<TaskField>)
    ensures var r := AssignAllTask(t, data);
      && (r.Err? <==> HasRawId(data))
      && (r.Err? ==> r.error.ValueError?)
      && (r.Ok? ==> r.value.id == t.id && r.value.deadline == (if LastDeadline(data).Some? then LastDeadline(data).value else t.deadline))
  {
    if data != [] {
      var p := data[..|data| - 1];
      AssignAllTaskResult(t, p);
      assert forall i :: 0 <= i < |p| ==> p[i] == data[i];
      if HasRawId(data) && !data[|data| - 1].SetRawId? {
        var i :| 0 <= i < |data| && data[i].SetRawId?;
        assert i < |p| && p[i].SetRawId?;
      }
    }
  }

  function UpdateTaskSpec(w: World, t: TaskRow, data: seq<TaskField>): (World, Result<TaskRow, Exc>) {
    match AssignAllTask(t, data)
    case Err(e) => (w, Err(Rewrap(e)))
    case Ok(u) =>
      var (w1, r) := Write(w, SaveTask(u));
      (w1, if r.Ok? then Ok(u) else Err(Rewrap(r.error)))
  }

  /** `TaskService.update_task`: assign each attribute in turn, then save once. */
  method UpdateTask(env: Env, t: TaskRow, data: seq<TaskField>) returns (r: Result<TaskRow, Exc>)
    modifies env
    ensures (env.State(), r) == UpdateTaskSpec(old(env.State()), t, data)
  {
    var u := t;
    var i := 0;
    while i < |data|
      invariant 0 <= i <= |data|
      invariant AssignAllTask(t, data[..i]) == Ok(u)
    {
      assert data[..i + 1][..i] == data[..i];
      var step := AssignTask(u, data[i]);
      if step.Err? {
        AssignStopsAtError(t, data, i + 1);
        return Err(Rewrap(step.error));
      }
      u := step.value;
      i := i + 1;
    }
    assert data[..i] == data;
    var saved := env.Execute(SaveTask(u));
    r := if saved.Ok? then Ok(u) else Err(Rewrap(saved.error));
  }

  lemma {:induction false} AssignStopsAtError(t: TaskRow, data: seq<TaskField>, k: int)
    requires 0 <= k <= |data| && AssignAllTask(t, data[..k]).Err?
    ensures AssignAllTask(t, data) == AssignAllTask(t, data[..k])
    decreases |data| - k
  {
    if k < |data| {
      assert data[..k + 1][..k] == data[..k];
      AssignStopsAtError(t, data, k + 1);
    } else {
      assert data[..k] == data;
    }
  }

  /** A bare relation id makes the update fail, rewrapped, before the save: the row is
      untouched. Otherwise the one save writes the assigned row. */
  lemma UpdateTaskOutcome(w: World, t: TaskRow, data: seq<TaskField>)
    ensures var (w', r) := UpdateTaskSpec(w, t, data);
      && (HasRawId(data) ==> w' == w && r.Err? && r.error.DjangoValidationError?
                             && r.error.detail.Wrapped? && r.error.detail.inner.ValueError?)
      && (!HasRawId(data) ==> r.Ok? && r.value.id == t.id && w'.trace == w.trace + [Saved(Tasks, t.id)]
                              && r.value in w'.db.tasks && w'.db.projects == w.db.projects)
  {
    AssignAllTaskResult(t, data);
    if !HasRawId(data) {
      var u := AssignAllTask(t, data).value;
      UpsertContains(w.db.tasks, u);
    }
  }

  /** A saved row is in the table afterwards. */
  lemma UpsertContains(rows: seq<TaskRow>, row: TaskRow)
    ensures row in Upsert(rows, (x: TaskRow) => x.id, row)
  {
    var r := Upsert(rows, (x: TaskRow) => x.id, row);
    if Exists(rows, (x: TaskRow) => x.id == row.id) {
      var i :| 0 <= i < |rows| && rows[i].id == row.id;
      assert r[i] == row;
    } else {
      assert r[|rows|] == row;
    }
  }
}
