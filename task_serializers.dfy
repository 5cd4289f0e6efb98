/**
 * The task serializers (task/api/serializers.py): the validation shared by both serializers,
 * the creation checks of `TaskSerializer.validate`, and the save paths, which drive the
 * deadline-reminder scheduler and then make the `send_event` call after each table write. As
 * written that call raises `TypeError` (see `Events`), after the write and the reminder change
 * have happened; every save path takes the signature it binds against.
 */
module TaskSerializers {
  import opened Wrappers
  import opened Uuids
  import opened JsonEncoder
  import opened Backend
  import opened KafkaProducers
  import opened CeleryMixin
  import opened TaskService
  import Events
  import ProjectService

  // ---------------------------------------------------------------- validation

  predicate ProjectKnown(db: Db, id: Uuid) {
    Exists(db.projects, (p: ProjectRow) => p.id == id)
  }

  const UnknownAssignee: Exc := DjangoValidationError(FieldError("assignee", "User does not exist."))
  const UnknownProject: Exc := DjangoValidationError(FieldError("project", "Project does not exist."))
  const ForeignAssignee: Exc := DjangoValidationError(FieldError("assignee", "The assignee does not belong to the project."))

  /** `TaskSerializerMixin.validate_assignee_and_project`: nothing is checked unless both ids are
      given (the assignee relation is read by its `.id`, and a missing key is None); then the
      assignee, the project and the membership are checked in that order. The
      data comes back unchanged. */
  function ValidateAssigneeAndProject(db: Db, data: TaskData): (r: Result<TaskData, Exc>)
    ensures r.Ok? ==> r.value == data
    ensures ProjectId(data.project).None? || data.assignee.None? ==> r == Ok(data)
    ensures r.Ok? <==>
      || ProjectId(data.project).None? || data.assignee.None?
      || (&& ProjectService.UserExists(db, data.assignee.value) && ProjectKnown(db, ProjectId(data.project).value)
          && ProjectService.InProject(db, ProjectId(data.project).value, data.assignee.value))
    ensures r.Err? ==>
      var p, a := ProjectId(data.project).value, data.assignee.value;
      && (r.error == UnknownAssignee <==> !ProjectService.UserExists(db, a))
      && (r.error == UnknownProject <==> ProjectService.UserExists(db, a) && !ProjectKnown(db, p))
      && (r.error == ForeignAssignee <==> ProjectService.UserExists(db, a) && ProjectKnown(db, p) && !ProjectService.InProject(db, p, a))
  {
    var projectId := ProjectId(data.project);
    var assigneeId := data.assignee;
    if projectId.Some? && assigneeId.Some? then
      if !ProjectService.UserExists(db, assigneeId.value) then Err(UnknownAssignee)
      else if !ProjectKnown(db, projectId.value) then Err(UnknownProject)
      else if !ProjectService.InProject(db, projectId.value, assigneeId.value) then Err(ForeignAssignee)
      else Ok(data)
    else Ok(data)
  }

  /** `Task.objects.filter(title=..., project=..., assignee=...).exists()`; a missing key filters
      on NULL, which no row of these NOT NULL columns matches. */
  predicate SameTitleTask(db: Db, data: TaskData) {
    Exists(db.tasks, (t: TaskRow) =>
      Some(t.title) == data.title && Some(t.project) == ProjectId(data.project) && Some(t.assignee) == data.assignee)
  }

  const PastDeadline: Exc := DrfValidationError(FieldError("deadline", "Deadline must be in the future."))
  const SameTitle: Exc := DrfValidationError(FieldError("error", "Task with the same title, project, and assignee already exists."))

  /** `TaskSerializer.validate`; `creating` is `self.instance is None` and `now` is
      `timezone.now()`. A missing deadline on creation fails the comparison with `TypeError`. */
  function Validate(db: Db, data: TaskData, creating: bool, now: int): (r: Result<TaskData, Exc>)
    ensures r.Ok? ==> r.value == data
    ensures !creating ==> r == ValidateAssigneeAndProject(db, data)
    ensures creating && data.deadline.None? ==> r == Err(OtherException("TypeError"))
    ensures creating && data.deadline.Some? ==>
      (r == Err(PastDeadline) <==> data.deadline.value < now)
    ensures creating && data.deadline.Some? && data.deadline.value >= now ==>
      (r == Err(SameTitle) <==> SameTitleTask(db, data))
    ensures creating && r.Ok? ==>
      data.deadline.Some? && data.deadline.value >= now && !SameTitleTask(db, data)
  {
    if creating then
      if data.deadline.None? then Err(OtherException("TypeError"))
      else if data.deadline.value < now then Err(PastDeadline)
      else if SameTitleTask(db, data) then Err(SameTitle)
      else ValidateAssigneeAndProject(db, data)
    else ValidateAssigneeAndProject(db, data)
  }

  // ---------------------------------------------------------------- events

  /** `TaskSerializer.to_representation(task)`: the row's fields, relations as their ids. */
  function TaskRepresentation(t: TaskRow): (v: PyValue)
  {
    var entries := TaskPartialRepresentation(t).entries + [Entry("created_by", PStr(Canonical(t.createdBy)))];
    PDict(entries)
  }

  /** `TaskPartialUpdateSerializer.to_representation(task)`: the same fields without
      `created_by`, which that serializer excludes. */
  function TaskPartialRepresentation(t: TaskRow): (v: PyValue)
  {
    var entries := [
      Entry("id", PStr(Canonical(t.id))),
      Entry("title", PStr(t.title)),
      Entry("description", PStr(t.description)),
      Entry("deadline", PInt(t.deadline)),
      Entry("status", PStr(t.status)),
      Entry("assignee", PStr(Canonical(t.assignee))),
      Entry("project", PStr(Canonical(t.project)))];
    PDict(entries)
  }

  /** Both representations are dictionaries that `json.dumps` accepts, keyed by the row's id first. */
  lemma RepresentationEncodes(t: TaskRow, partial: bool)
    ensures var v := Representation(t, partial);
      v.PDict? && Serializable(v) && Events.Lookup(v.entries, "id") == Some(PStr(Canonical(t.id)))
  {
    if partial {
      PartialRepresentationEncodes(t);
    } else {
      PartialRepresentationEncodes(t);
      Events.LookupAt(TaskRepresentation(t).entries, 0);
    }
  }

  lemma PartialRepresentationEncodes(t: TaskRow)
    ensures var v := TaskPartialRepresentation(t);
      v.PDict? && Serializable(v) && Events.Lookup(v.entries, "id") == Some(PStr(Canonical(t.id)))
  {
    Events.LookupAt(TaskPartialRepresentation(t).entries, 0);
  }

  /** The payload of a save path's event: the partial serializer's representation or the full one. */
  function Representation(t: TaskRow, partial: bool): PyValue {
    if partial then TaskPartialRepresentation(t) else TaskRepresentation(t)
  }

  /** The two representations differ in exactly one entry: the full one adds the creator after
      the partial one's fields. */
  lemma RepresentationsDifferInCreator(t: TaskRow)
    ensures TaskRepresentation(t).entries == TaskPartialRepresentation(t).entries + [Entry("created_by", PStr(Canonical(t.createdBy)))]
    ensures Events.Lookup(TaskRepresentation(t).entries, "created_by") == Some(PStr(Canonical(t.createdBy)))
    ensures Events.Lookup(TaskPartialRepresentation(t).entries, "created_by") == None
  {
    var p := TaskPartialRepresentation(t).entries;
    assert forall i :: 0 <= i < |p| ==> p[i].key in ["id", "title", "description", "deadline", "status", "assignee", "project"];
    Events.LookupMissing(p, "created_by");
    Events.LookupAt(p + [Entry("created_by", PStr(Canonical(t.createdBy)))], |p|);
  }

  /** The `send_event` call after a create or an update: the row's representation under its id. */
  function TaskEventSpec(w: World, sig: Events.Signature, name: Events.EventName, t: TaskRow, partial: bool)
    : (World, Result<(), Exc>)
  {
    Events.SendEventCallSpec(w, sig, Events.TaskSaveCall, Events.Label(name, "task"), "Task", ModelsTopic, "MODEL",
                             Representation(t, partial), PStr(Canonical(t.id)))
  }

  /** What a delivered task event queued on the broker. */
  predicate TaskEventSent(w: World, w': World, name: Events.EventName, id: Uuid) {
    Events.Delivered(w, w', ModelsTopic, "MODEL", Events.Label(name, "task"), "Task", JString(Canonical(id)))
  }

  /** A task event with the producer accepting: one message whose payload is the chosen
      representation, the envelope's fields as given, and the store, the queue and the tables
      as they were. */
  lemma TaskEventDelivered(w: World, name: Events.EventName, t: TaskRow, partial: bool)
    requires w.faults.producer == Accepts
    ensures Dumps(Representation(t, partial)).Ok?
    ensures var (w', sent) := TaskEventSpec(w, Events.Intended, name, t, partial);
      && sent.Ok? && TaskEventSent(w, w', name, t.id)
      && Events.MemberValue(w'.broker[|w.broker|].value.members, "model_data") == Some(Dumps(Representation(t, partial)).value)
      && w'.trace == w.trace + Events.DeliveryTrace(ModelsTopic, w'.broker[|w.broker|])
      && w'.store == w.store && w'.queue == w.queue && w'.db == w.db
  {
    DumpsUuid(t.id);
    RepresentationEncodes(t, partial);
    Events.TypedEventDelivered(w, Events.Label(name, "task"), "Task", ModelsTopic, "MODEL",
                               Representation(t, partial), PStr(Canonical(t.id)), Events.DefaultReceiver);
  }

  /** As written, the task event call raises `TypeError` and changes nothing. */
  lemma TaskEventRaisesAsWritten(w: World, name: Events.EventName, t: TaskRow, partial: bool)
    ensures TaskEventSpec(w, Events.AsWritten, name, t, partial) == (w, Err(Events.EventTypeRejected))
  {
    Events.TaskSaveCallBinding();
  }

  /** A task event, whatever its signature and outcome, leaves the job store, the queue, the
      tables and the fault oracle alone. */
  lemma TaskEventFrames(w: World, sig: Events.Signature, name: Events.EventName, t: TaskRow, partial: bool)
    ensures var w' := TaskEventSpec(w, sig, name, t, partial).0;
      w'.store == w.store && w'.queue == w.queue && w'.db == w.db && w'.faults == w.faults
  {
    Events.EventCallFrames(w, sig, Events.TaskSaveCall, Events.Label(name, "task"), "Task", ModelsTopic, "MODEL",
                           Representation(t, partial), PStr(Canonical(t.id)));
  }

  // ---------------------------------------------------------------- create

  function CreateSpec(w: World, sig: Events.Signature, data: TaskData, newId: Uuid): (World, Result<TaskRow, Exc>) {
    var (w2, written) := CreateWrites(w, data, newId);
    if written.Err? then (w2, written) else SaveEvent(w2, sig, Events.Create, written.value, false)
  }

  /** The writes of a create: the new row, the insert, then the reminder's schedule; the row
      unless one of them raised. */
  function CreateWrites(w: World, data: TaskData, newId: Uuid): (World, Result<TaskRow, Exc>) {
    match NewTaskRow(data, newId)
    case Err(e) => (w, Err(e))
    case Ok(row) =>
      var (w1, inserted) := Write(w, InsertTask(row));
      if inserted.Err? then (w1, Err(inserted.error))
      else
        var (w2, scheduled) := ScheduleSpec(w1, SendDeadlineNotification, row.id, row.deadline - OneHour);
        if scheduled.Err? then (w2, Err(scheduled.error)) else (w2, Ok(row))
  }

  /** The end of a create or an update: the save event's call for row `t`, then the row
      unless the call raised. */
  function SaveEvent(w: World, sig: Events.Signature, name: Events.EventName, t: TaskRow, partial: bool)
    : (World, Result<TaskRow, Exc>)
  {
    var (w', sent) := TaskEventSpec(w, sig, name, t, partial);
    (w', if sent.Ok? then Ok(t) else Err(sent.error))
  }

  /** `TaskSerializer.create` on validated data: insert, schedule the reminder one hour before
      the deadline, then make the create event's call. `newId` is the key the new row receives. */
  method Create(env: Env, sig: Events.Signature, data: TaskData, newId: Uuid) returns (r: Result<TaskRow, Exc>)
    modifies env
    ensures (env.State(), r) == CreateSpec(old(env.State()), sig, data, newId)
  {
    var row := NewTaskRow(data, newId);
    if row.Err? {
      return Err(row.error);
    }
    var task := row.value;
    var inserted := env.Execute(InsertTask(task));
    if inserted.Err? {
      return Err(inserted.error);
    }
    var scheduled := ScheduleTask(env, SendDeadlineNotification, task.id, task.deadline - OneHour);
    if scheduled.Err? {
      return Err(scheduled.error);
    }
    var sent := Events.SendEventCall(env, sig, Events.TaskSaveCall, Events.Label(Events.Create, "task"), "Task",
                                     ModelsTopic, "MODEL", Representation(task, false), PStr(Canonical(task.id)));
    r := if sent.Ok? then Ok(task) else Err(sent.error);
  }

  /** With every service up, a create inserts the row, submits one reminder for the new id due
      one hour before the deadline and stores its handle under the task's key. Intended, the new
      row is returned; as written, the event call then raises `TypeError`, with the row and the
      reminder already in place and nothing sent. */
  lemma CreateInsertsAndSchedules(w: World, sig: Events.Signature, data: TaskData, newId: Uuid)
    requires AllUp(w) && (sig == Events.Intended ==> w.faults.producer == Accepts)
    requires NewTaskRow(data, newId).Ok? && newId !in TaskIds(w.db.tasks)
    ensures var row := NewTaskRow(data, newId).value;
      var h := Handle(w.queue.next);
      var (w', r) := CreateSpec(w, sig, data, newId);
      && r == (if sig == Events.Intended then Ok(row) else Err(Events.EventTypeRejected))
      && w'.db.tasks == w.db.tasks + [row]
      && w'.queue.jobs == w.queue.jobs[h := Job(SendDeadlineNotification, [newId], row.deadline - OneHour)]
      && w'.queue.revoked == w.queue.revoked
      && w'.store == w.store[RedisKey(SendMail, newId) := h]
      && (sig == Events.AsWritten ==> w'.broker == w.broker)
  {
    var row := NewTaskRow(data, newId).value;
    CreateComposes(w, sig, data, newId);
    SaveEventOutcome(InsertedAndScheduled(w, row), sig, Events.Create, row, false);
  }

  /** The event step of a save returns the row when the intended event is delivered, raises
      `TypeError` as written, and, whatever the signature and the outcome, touches neither the
      tables, the queue, the job store nor the fault oracle. */
  lemma SaveEventOutcome(w: World, sig: Events.Signature, name: Events.EventName, t: TaskRow, partial: bool)
    ensures var (w', r) := SaveEvent(w, sig, name, t, partial);
      && (sig == Events.Intended && w.faults.producer == Accepts ==> r == Ok(t))
      && (sig == Events.AsWritten ==> (w', r) == (w, Err(Events.EventTypeRejected)))
      && w'.db == w.db && w'.queue == w.queue && w'.store == w.store && w'.faults == w.faults
  {
    TaskEventFrames(w, sig, name, t, partial);
    if sig == Events.Intended && w.faults.producer == Accepts {
      TaskEventDelivered(w, name, t, partial);
    } else if sig == Events.AsWritten {
      TaskEventRaisesAsWritten(w, name, t, partial);
    }
  }

  /** ... and, intended, emits one create event for the new id on the models topic, whose
      payload is the new row's full representation. */
  lemma CreateEmitsEvent(w: World, data: TaskData, newId: Uuid)
    requires AllUp(w) && w.faults.producer == Accepts
    requires NewTaskRow(data, newId).Ok? && newId !in TaskIds(w.db.tasks)
    ensures Dumps(TaskRepresentation(NewTaskRow(data, newId).value)).Ok?
    ensures var w' := CreateSpec(w, Events.Intended, data, newId).0;
      && TaskEventSent(w, w', Events.Create, newId)
      && Events.MemberValue(w'.broker[|w.broker|].value.members, "model_data")
         == Some(Dumps(TaskRepresentation(NewTaskRow(data, newId).value)).value)
  {
    var row := NewTaskRow(data, newId).value;
    CreateComposes(w, Events.Intended, data, newId);
    TaskEventDelivered(InsertedAndScheduled(w, row), Events.Create, row, false);
  }

  /** ... in that order: insert, submit, store, then (intended) the event; as written the trace
      ends with the store write. */
  lemma CreateEffectOrder(w: World, sig: Events.Signature, data: TaskData, newId: Uuid)
    requires AllUp(w) && (sig == Events.Intended ==> w.faults.producer == Accepts)
    requires NewTaskRow(data, newId).Ok? && newId !in TaskIds(w.db.tasks)
    ensures var row := NewTaskRow(data, newId).value;
      var h := Handle(w.queue.next);
      var w' := CreateSpec(w, sig, data, newId).0;
      var writes := [Inserted(Tasks, newId), Submitted(h, Job(SendDeadlineNotification, [newId], row.deadline - OneHour)),
                     StoreSet(RedisKey(SendMail, newId), h)];
      && (sig == Events.Intended ==>
            |w'.broker| == |w.broker| + 1 && w'.trace == w.trace + writes + Events.DeliveryTrace(ModelsTopic, w'.broker[|w.broker|]))
      && (sig == Events.AsWritten ==> w'.trace == w.trace + writes)
  {
    var row := NewTaskRow(data, newId).value;
    CreateComposes(w, sig, data, newId);
    if sig == Events.Intended {
      TaskEventDelivered(InsertedAndScheduled(w, row), Events.Create, row, false);
    } else {
      TaskEventRaisesAsWritten(InsertedAndScheduled(w, row), Events.Create, row, false);
    }
  }

  lemma CreateComposes(w: World, sig: Events.Signature, data: TaskData, newId: Uuid)
    requires AllUp(w) && NewTaskRow(data, newId).Ok? && newId !in TaskIds(w.db.tasks)
    ensures var row := NewTaskRow(data, newId).value;
      CreateSpec(w, sig, data, newId) == SaveEvent(InsertedAndScheduled(w, row), sig, Events.Create, row, false)
  {
    var row := NewTaskRow(data, newId).value;
    InsertThenSchedule(w, row);
    assert CreateWrites(w, data, newId) == (InsertedAndScheduled(w, row), Ok(row));
  }

  /** As written, a create with every service up inserts the row and schedules its reminder,
      and then raises `TypeError` at the event call: the caller never gets the row back, and
      nothing is sent. */
  lemma CreateAsWrittenWritesThenRaises(w: World, data: TaskData, newId: Uuid)
    requires AllUp(w) && NewTaskRow(data, newId).Ok? && newId !in TaskIds(w.db.tasks)
    ensures CreateSpec(w, Events.AsWritten, data, newId)
      == (InsertedAndScheduled(w, NewTaskRow(data, newId).value), Err(Events.EventTypeRejected))
  {
    var row := NewTaskRow(data, newId).value;
    CreateComposes(w, Events.AsWritten, data, newId);
    TaskEventRaisesAsWritten(InsertedAndScheduled(w, row), Events.Create, row, false);
  }

  /** The world after the insert and the schedule of a create. */
  function InsertedAndScheduled(w: World, row: TaskRow): World {
    var h := Handle(w.queue.next);
    w.(db := w.db.(tasks := w.db.tasks + [row]),
       queue := Queue(w.queue.jobs[h := Job(SendDeadlineNotification, [row.id], row.deadline - OneHour)],
                      w.queue.revoked, w.queue.next + 1),
       store := w.store[RedisKey(SendMail, row.id) := h],
       trace := w.trace + [Inserted(Tasks, row.id), Submitted(h, Job(SendDeadlineNotification, [row.id], row.deadline - OneHour)),
                           StoreSet(RedisKey(SendMail, row.id), h)])
  }

  lemma InsertThenSchedule(w: World, row: TaskRow)
    requires AllUp(w) && row.id !in TaskIds(w.db.tasks)
    ensures var (w1, inserted) := Write(w, InsertTask(row));
      && inserted.Ok?
      && ScheduleSpec(w1, SendDeadlineNotification, row.id, row.deadline - OneHour)
         == (InsertedAndScheduled(w, row), Ok(Handle(w.queue.next)))
  {
    var job := Job(SendDeadlineNotification, [row.id], row.deadline - OneHour);
    var h := Handle(w.queue.next);
    var key := RedisKey(SendMail, row.id);
    var w1 := w.(db := w.db.(tasks := w.db.tasks + [row]), trace := w.trace + [Inserted(Tasks, row.id)]);
    assert Write(w, InsertTask(row)) == (w1, Ok(()));
    var ws := w1.(queue := InsertedAndScheduled(w, row).queue, trace := w1.trace + [Submitted(h, job)]);
    assert Submit(w1, job) == (ws, Ok(h));
    assert ws.trace + [StoreSet(key, h)] == InsertedAndScheduled(w, row).trace;
    assert StorePut(ws, key, h) == (InsertedAndScheduled(w, row), Ok(()));
  }

  /** The save paths are not atomic: when the queue is down the row stays inserted, without a
      reminder and without an event. */
  lemma CreateKeepsRowWhenQueueDown(w: World, sig: Events.Signature, data: TaskData, newId: Uuid)
    requires !w.faults.queueUp
    requires NewTaskRow(data, newId).Ok? && newId !in TaskIds(w.db.tasks)
    ensures var (w', r) := CreateSpec(w, sig, data, newId);
      && r == Err(QueueUnavailable)
      && w'.db.tasks == w.db.tasks + [NewTaskRow(data, newId).value]
      && w'.broker == w.broker && w'.store == w.store && w'.queue == w.queue
  {
  }

  // ---------------------------------------------------------------- update

  /** `validated_data` holds a deadline. */
  predicate GivesDeadline(data: seq<TaskField>) {
    exists i :: 0 <= i < |data| && data[i].SetDeadline?
  }

  lemma {:induction false} LastDeadlineGiven(data: seq<TaskField>)
    ensures LastDeadline(data).Some? <==> GivesDeadline(data)
  {
    if data != [] {
      var p := data[..|data| - 1];
      LastDeadlineGiven(p);
      assert forall i :: 0 <= i < |p| ==> p[i] == data[i];
      if GivesDeadline(data) && !data[|data| - 1].SetDeadline? {
        var i :| 0 <= i < |data| && data[i].SetDeadline?;
        assert p[i].SetDeadline?;
      }
    }
  }

  /** The steps after `super().update(...)` has saved the row: reschedule when `reschedule`
      holds, then make the update event's call with the chosen representation. */
  function AfterSave(w: World, sig: Events.Signature, partial: bool, old_deadline: int, u: TaskRow, reschedule: bool)
    : (World, Result<TaskRow, Exc>)
  {
    var (w1, rescheduled) :=
      if reschedule then RescheduleSpec(w, SendDeadlineNotification, u.id, old_deadline, u.deadline)
      else (w, Ok(None));
    if rescheduled.Err? then (w1, Err(rescheduled.error)) else SaveEvent(w1, sig, Events.Update, u, partial)
  }

  /** `ModelSerializer.update`: assign each validated attribute, then save. */
  function SaveFields(w: World, instance: TaskRow, data: seq<TaskField>): (World, Result<TaskRow, Exc>) {
    match AssignAllTask(instance, data)
    case Err(e) => (w, Err(e))
    case Ok(u) =>
      var (w1, saved) := Write(w, SaveTask(u));
      (w1, if saved.Ok? then Ok(u) else Err(saved.error))
  }

  function UpdateSpec(w: World, sig: Events.Signature, instance: TaskRow, data: seq<TaskField>): (World, Result<TaskRow, Exc>) {
    var (w1, saved) := SaveFields(w, instance, data);
    if saved.Err? then (w1, Err(saved.error))
    else AfterSave(w1, sig, false, instance.deadline, saved.value, true)
  }

  function PartialUpdateSpec(w: World, sig: Events.Signature, instance: TaskRow, data: seq<TaskField>)
    : (World, Result<TaskRow, Exc>)
  {
    var (w1, saved) := SaveFields(w, instance, data);
    if saved.Err? then (w1, Err(saved.error))
    else AfterSave(w1, sig, true, instance.deadline, saved.value,
                   GivesDeadline(data) && instance.deadline != saved.value.deadline)
  }

  /** The attribute loop and the save of `ModelSerializer.update`. */
  method SaveFieldsOf(env: Env, instance: TaskRow, data: seq<TaskField>) returns (r: Result<TaskRow, Exc>)
    modifies env
    ensures (env.State(), r) == SaveFields(old(env.State()), instance, data)
  {
    var u := instance;
    var i := 0;
    while i < |data|
      invariant 0 <= i <= |data|
      invariant AssignAllTask(instance, data[..i]) == Ok(u)
    {
      assert data[..i + 1][..i] == data[..i];
      var step := AssignTask(u, data[i]);
      if step.Err? {
        AssignStopsAtError(instance, data, i + 1);
        return Err(step.error);
      }
      u := step.value;
      i := i + 1;
    }
    assert data[..i] == data;
    var saved := env.Execute(SaveTask(u));
    r := if saved.Ok? then Ok(u) else Err(saved.error);
  }

  method AfterSaveOf(env: Env, sig: Events.Signature, partial: bool, old_deadline: int, u: TaskRow, reschedule: bool)
    returns (r: Result<TaskRow, Exc>)
    modifies env
    ensures (env.State(), r) == AfterSave(old(env.State()), sig, partial, old_deadline, u, reschedule)
  {
    if reschedule {
      var rescheduled := RescheduleTask(env, SendDeadlineNotification, u.id, old_deadline, u.deadline);
      if rescheduled.Err? {
        return Err(rescheduled.error);
      }
    }
    var sent := Events.SendEventCall(env, sig, Events.TaskSaveCall, Events.Label(Events.Update, "task"), "Task",
                                     ModelsTopic, "MODEL", Representation(u, partial), PStr(Canonical(u.id)));
    r := if sent.Ok? then Ok(u) else Err(sent.error);
  }

  /** `TaskSerializer.update`: save, hand both deadlines to `reschedule_task`, then the update
      event's call with the full representation. */
  method Update(env: Env, sig: Events.Signature, instance: TaskRow, data: seq<TaskField>) returns (r: Result<TaskRow, Exc>)
    modifies env
    ensures (env.State(), r) == UpdateSpec(old(env.State()), sig, instance, data)
  {
    var saved := SaveFieldsOf(env, instance, data);
    if saved.Err? {
      return Err(saved.error);
    }
    r := AfterSaveOf(env, sig, false, instance.deadline, saved.value, true);
  }

  /** `TaskPartialUpdateSerializer.update`: reschedule only for a given, changed deadline; the
      event's payload is the partial representation. */
  method PartialUpdate(env: Env, sig: Events.Signature, instance: TaskRow, data: seq<TaskField>)
    returns (r: Result<TaskRow, Exc>)
    modifies env
    ensures (env.State(), r) == PartialUpdateSpec(old(env.State()), sig, instance, data)
  {
    var saved := SaveFieldsOf(env, instance, data);
    if saved.Err? {
      return Err(saved.error);
    }
    r := AfterSaveOf(env, sig, true, instance.deadline, saved.value,
                     GivesDeadline(data) && instance.deadline != saved.value.deadline);
  }

  /** An update that leaves the deadline as it was touches neither the job store nor the queue. */
  lemma UpdateSameDeadlineKeepsReminder(w: World, sig: Events.Signature, instance: TaskRow, data: seq<TaskField>)
    requires !GivesDeadline(data) || LastDeadline(data) == Some(instance.deadline)
    ensures var w' := UpdateSpec(w, sig, instance, data).0; w'.store == w.store && w'.queue == w.queue
    ensures var w' := PartialUpdateSpec(w, sig, instance, data).0; w'.store == w.store && w'.queue == w.queue
  {
    AssignAllTaskResult(instance, data);
    LastDeadlineGiven(data);
    var r := AssignAllTask(instance, data);
    if r.Ok? {
      var w1 := Write(w, SaveTask(r.value)).0;
      SaveEventOutcome(w1, sig, Events.Update, r.value, false);
      SaveEventOutcome(w1, sig, Events.Update, r.value, true);
    }
  }

  /** A changed deadline, with every service up and a reminder on record, cancels the old
      reminder and leaves one live reminder due one hour before the new deadline, whichever
      signature the event call binds against. */
  lemma UpdateMovesReminder(w: World, sig: Events.Signature, instance: TaskRow, data: seq<TaskField>)
    requires AllUp(w) && HandlesIssued(w) && !HasRawId(data)
    requires LastDeadline(data).Some? && LastDeadline(data).value != instance.deadline
    requires RedisKey(SendMail, instance.id) in w.store
    ensures var (w', r) := UpdateSpec(w, sig, instance, data);
      var h := w.store[RedisKey(SendMail, instance.id)];
      && !Live(w'.queue, h)
      && RedisKey(SendMail, instance.id) in w'.store
      && var h' := w'.store[RedisKey(SendMail, instance.id)];
      && Live(w'.queue, h')
      && w'.queue.jobs[h'] == Job(SendDeadlineNotification, [instance.id], LastDeadline(data).value - OneHour)
  {
    AssignAllTaskResult(instance, data);
    var u := AssignAllTask(instance, data).value;
    var key := RedisKey(SendMail, instance.id);
    var w1 := Write(w, SaveTask(u)).0;
    SaveTaskWrites(w, u);
    var w2 := RescheduleSpec(w1, SendDeadlineNotification, u.id, instance.deadline, u.deadline).0;
    assert && !Live(w2.queue, w.store[key]) && key in w2.store
           && Live(w2.queue, w2.store[key])
           && w2.queue.jobs[w2.store[key]] == Job(SendDeadlineNotification, [instance.id], u.deadline - OneHour)
    by {
      RescheduleReplacesJob(w1, SendDeadlineNotification, u.id, instance.deadline, u.deadline, SendMail);
    }
    UpdateKeepsRescheduledReminder(w, sig, instance, data);
  }

  /** A task's save always succeeds and touches only the tables and the trace. */
  lemma SaveTaskWrites(w: World, u: TaskRow)
    ensures var (w1, saved) := Write(w, SaveTask(u));
      saved.Ok? && w1.store == w.store && w1.queue == w.queue && w1.faults == w.faults && w1.broker == w.broker
  {
  }

  /** Once the save and the reschedule succeed, an update leaves the job store and the queue
      as the reschedule left them, whatever its event call does. */
  lemma UpdateKeepsRescheduledReminder(w: World, sig: Events.Signature, instance: TaskRow, data: seq<TaskField>)
    requires AssignAllTask(instance, data).Ok?
    requires var u := AssignAllTask(instance, data).value; Write(w, SaveTask(u)).1.Ok?
    requires var u := AssignAllTask(instance, data).value;
      RescheduleSpec(Write(w, SaveTask(u)).0, SendDeadlineNotification, u.id, instance.deadline, u.deadline).1.Ok?
    ensures var u := AssignAllTask(instance, data).value;
      var w2 := RescheduleSpec(Write(w, SaveTask(u)).0, SendDeadlineNotification, u.id, instance.deadline, u.deadline).0;
      var w' := UpdateSpec(w, sig, instance, data).0;
      w'.store == w2.store && w'.queue == w2.queue
  {
    var u := AssignAllTask(instance, data).value;
    var w2 := RescheduleSpec(Write(w, SaveTask(u)).0, SendDeadlineNotification, u.id, instance.deadline, u.deadline).0;
    UpdateThroughReschedule(w, sig, instance, data);
    SaveEventOutcome(w2, sig, Events.Update, u, false);
  }

  /** With the assignments and the save succeeding and the reschedule too, the world after an
      update is the one the update event's call leaves after that reschedule. */
  lemma UpdateThroughReschedule(w: World, sig: Events.Signature, instance: TaskRow, data: seq<TaskField>)
    requires AssignAllTask(instance, data).Ok?
    requires var u := AssignAllTask(instance, data).value; Write(w, SaveTask(u)).1.Ok?
    requires var u := AssignAllTask(instance, data).value;
      RescheduleSpec(Write(w, SaveTask(u)).0, SendDeadlineNotification, u.id, instance.deadline, u.deadline).1.Ok?
    ensures var u := AssignAllTask(instance, data).value;
      UpdateSpec(w, sig, instance, data).0
        == SaveEvent(RescheduleSpec(Write(w, SaveTask(u)).0, SendDeadlineNotification, u.id, instance.deadline, u.deadline).0,
                     sig, Events.Update, u, false).0
  {
  }

  /** As written, an update never succeeds: the row is saved and the reminder moved as the
      intended update does, and then the event call raises `TypeError`, with nothing sent. */
  lemma UpdateAsWrittenRaisesAfterSave(w: World, instance: TaskRow, data: seq<TaskField>)
    ensures var (w1, saved) := SaveFields(w, instance, data);
      var (w', r) := UpdateSpec(w, Events.AsWritten, instance, data);
      var intended := UpdateSpec(w, Events.Intended, instance, data);
      && r.Err? && w'.broker == w.broker && w'.db == w1.db
      && w'.store == intended.0.store && w'.queue == intended.0.queue
      && (intended.1.Ok? ==> r == Err(Events.EventTypeRejected))
  {
    var (w1, saved) := SaveFields(w, instance, data);
    if saved.Ok? {
      var u := saved.value;
      var (w2, rescheduled) := RescheduleSpec(w1, SendDeadlineNotification, u.id, instance.deadline, u.deadline);
      RescheduleFramesBroker(w1, u.id, instance.deadline, u.deadline);
      if rescheduled.Ok? {
        SaveEventOutcome(w2, Events.AsWritten, Events.Update, u, false);
        SaveEventOutcome(w2, Events.Intended, Events.Update, u, false);
      }
    }
  }

  /** A reschedule touches neither the broker nor the tables. */
  lemma RescheduleFramesBroker(w: World, id: Uuid, old_deadline: int, new_deadline: int)
    ensures var w' := RescheduleSpec(w, SendDeadlineNotification, id, old_deadline, new_deadline).0;
      w'.broker == w.broker && w'.db == w.db
  {
  }

  /** The partial update's extra guard and its narrower payload change nothing but the message:
      without a deadline in the data the deadline is unchanged, and `reschedule_task` already
      does nothing for equal deadlines; both payloads encode. So the two serializers leave the
      same store, queue and tables and return the same result; as written, where no message is
      sent, they leave the same world. */
  lemma PartialUpdateAgreesWithUpdate(w: World, sig: Events.Signature, instance: TaskRow, data: seq<TaskField>)
    ensures var (wp, rp) := PartialUpdateSpec(w, sig, instance, data);
      var (wu, ru) := UpdateSpec(w, sig, instance, data);
      && rp == ru && wp.store == wu.store && wp.queue == wu.queue && wp.db == wu.db
      && (sig == Events.AsWritten ==> wp == wu)
  {
    AssignAllTaskResult(instance, data);
    LastDeadlineGiven(data);
    var (w1, saved) := SaveFields(w, instance, data);
    if saved.Ok? {
      var u := saved.value;
      RescheduleSameDeadlineIsNoop(w1, SendDeadlineNotification, u.id, instance.deadline, SendMail);
      var (w2, rescheduled) := RescheduleSpec(w1, SendDeadlineNotification, u.id, instance.deadline, u.deadline);
      var w2' := if GivesDeadline(data) && instance.deadline != u.deadline then w2 else w1;
      assert w2'.store == w2.store && w2'.queue == w2.queue && w2'.db == w2.db && w2'.faults == w2.faults;
      if rescheduled.Ok? {
        AfterRescheduleAgrees(w2', w2, sig, u);
      }
    }
  }

  /** The update event's call with the partial payload on one world and with the full payload
      on a world with the same store, queue, tables and faults: the same result, and the same
      store, queue and tables after. */
  lemma AfterRescheduleAgrees(wp: World, wu: World, sig: Events.Signature, u: TaskRow)
    requires wp.store == wu.store && wp.queue == wu.queue && wp.db == wu.db && wp.faults == wu.faults
    requires sig == Events.AsWritten ==> wp == wu
    ensures var (wp', rp) := SaveEvent(wp, sig, Events.Update, u, true);
      var (wu', ru) := SaveEvent(wu, sig, Events.Update, u, false);
      && rp == ru && wp'.store == wu'.store && wp'.queue == wu'.queue && wp'.db == wu'.db
      && (sig == Events.AsWritten ==> wp' == wu')
  {
    SaveEventOutcome(wp, sig, Events.Update, u, true);
    SaveEventOutcome(wu, sig, Events.Update, u, false);
    if sig == Events.Intended {
      RepresentationEncodes(u, true);
      RepresentationEncodes(u, false);
      Events.TypedEventResultIgnoresPayload(wp, wu, Events.Label(Events.Update, "task"), "Task", ModelsTopic, "MODEL",
                                            TaskPartialRepresentation(u), TaskRepresentation(u), PStr(Canonical(u.id)));
    }
  }

  // ---------------------------------------------------------------- delete

  function DeleteSpec(w: World, sig: Events.Signature, instance: TaskRow): (World, Result<(), Exc>) {
    var (w1, revoked) := RevokeSpec(w, instance.id);
    if revoked.Err? then (w1, Err(revoked.error))
    else
      var (w2, sent) := Events.SendEventCallSpec(w1, sig, Events.DeleteCall, Events.Label(Events.Delete, "task"), "Task",
                                                 ModelsTopic, "MODEL", entityId := PStr(Canonical(instance.id)));
      if sent.Err? then (w2, Err(sent.error))
      else Write(w2, DeleteTask(instance.id))
  }

  /** `TaskSerializer.delete`: revoke the reminder, make the delete event's call, then delete
      the row. */
  method Delete(env: Env, sig: Events.Signature, instance: TaskRow) returns (r: Result<(), Exc>)
    modifies env
    ensures (env.State(), r) == DeleteSpec(old(env.State()), sig, instance)
  {
    var revoked := RevokeTask(env, instance.id);
    if revoked.Err? {
      return Err(revoked.error);
    }
    var sent := Events.SendEventCall(env, sig, Events.DeleteCall, Events.Label(Events.Delete, "task"), "Task",
                                     ModelsTopic, "MODEL", entityId := PStr(Canonical(instance.id)));
    if sent.Err? {
      return Err(sent.error);
    }
    r := env.Execute(DeleteTask(instance.id));
  }

  /** Intended, with every service up, a delete first cancels the stored reminder and drops
      its key, then sends the delete event, and only then deletes the row. */
  lemma DeleteRevokesEmitsThenDeletes(w: World, instance: TaskRow)
    requires AllUp(w) && w.faults.producer == Accepts
    requires RedisKey(SendMail, instance.id) in w.store
    ensures var key := RedisKey(SendMail, instance.id);
      var h := w.store[key];
      var (w', r) := DeleteSpec(w, Events.Intended, instance);
      && r == Ok(())
      && !Live(w'.queue, h) && key !in w'.store
      && TaskEventSent(w, w', Events.Delete, instance.id)
      && (forall t :: t in w'.db.tasks ==> t.id != instance.id)
      && w'.trace == w.trace + [StoreGot(key), Revoked(h), StoreDeleted(key)]
                     + Events.DeliveryTrace(ModelsTopic, w'.broker[|w.broker|]) + [Deleted(Tasks, {instance.id})]
  {
    RevokeCancelsStoredHandle(w, instance.id, SendMail);
    var w1 := RevokeSpec(w, instance.id).0;
    DumpsUuid(instance.id);
    Events.TypedEventDelivered(w1, Events.Label(Events.Delete, "task"), "Task", ModelsTopic, "MODEL",
                               PNone, PStr(Canonical(instance.id)), Events.DefaultReceiver);
    var w2 := Events.SendEventCallSpec(w1, Events.Intended, Events.DeleteCall, Events.Label(Events.Delete, "task"), "Task",
                                       ModelsTopic, "MODEL", entityId := PStr(Canonical(instance.id))).0;
    DeleteTaskWrites(w2, instance.id);
  }

  /** As written, a delete revokes the reminder and then raises `TypeError` at the event call:
      the reminder is gone, the row is never deleted and nothing is sent. */
  lemma DeleteAsWrittenKeepsRow(w: World, instance: TaskRow)
    ensures var (w1, revoked) := RevokeSpec(w, instance.id);
      DeleteSpec(w, Events.AsWritten, instance) == (w1, Err(if revoked.Err? then revoked.error else Events.EventTypeRejected))
    ensures DeleteSpec(w, Events.AsWritten, instance).0.db == w.db
  {
    Events.DeleteCallBinding();
  }

  /** A failing revoke or a failing event call stops the delete: the row is still there. */
  lemma DeleteKeepsRowOnFailure(w: World, sig: Events.Signature, instance: TaskRow)
    ensures var (w', r) := DeleteSpec(w, sig, instance);
      r.Err? ==> w'.db == w.db
  {
    var (w1, revoked) := RevokeSpec(w, instance.id);
    if revoked.Ok? {
      Events.EventCallFrames(w1, sig, Events.DeleteCall, Events.Label(Events.Delete, "task"), "Task", ModelsTopic, "MODEL",
                             PNone, PStr(Canonical(instance.id)));
    }
  }
}
