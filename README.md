# ToDo core: reminders, events, files, access and membership in Dafny

This project models the core of the ToDo backend, a Django/DRF service for projects, project
memberships and tasks with deadlines. The core has these parts:

- **Deadline-reminder scheduler** (`CeleryMixin`, and `LegacyCeleryMixin` for the older module
  `common/mixins.py`). A reminder job is submitted to the work queue. Its handle is recorded in
  the job store under the key `"task: {type}: {id}"`. The job is revoked and replaced when the
  deadline moves.
- **Task serializers** (`TaskSerializers`). They validate a task, then create, update,
  partially update or delete it. Like the source, they write the table directly rather than
  through `TaskService` (`TaskService`, task/api/service.py, is modelled on its own); they share
  only the helpers `TaskService.NewTaskRow` (the row `Task.objects.create` builds) and
  `TaskService.AssignAllTask` (the `setattr` loop). Each operation drives the scheduler and then
  calls `send_event` with an `event_type` keyword, which `send_event` has no parameter for. As
  written, that call raises `TypeError` after the writes before it, so no event is ever
  published. Every caller of `send_event` therefore takes the signature the call binds against
  (`Events.Signature`): `AsWritten`, or `Intended`, where `send_event` forwards the type.
- **Events** (`Events`, `KafkaProducers`, `JsonEncoder`, `Uuids`). An event is a six-key
  envelope, encoded with the custom JSON encoder. A new producer sends it to one of two topics
  under a fixed key. Broker and connection failures are logged and swallowed. `flush` returns
  whether or not the message was delivered, so a success may have sent nothing.
- **File-slug replacement** (`FileMixin`). Every file is uploaded, then every old slug is
  deleted, then the instance is saved. Each loop stops at its first failure.
- **Access decisions** (`CommonPermissions`, `ProjectPermissions`, `TaskPermissions`). These
  are pure checks on the request role and the membership table.
- **Memberships and projects** (`ProjectService`, `ProjectSerializers`, `ProjectViews`). They
  cover the ordered validation, the table writes, the events, the lookup in `get_object`, and
  the 400 mapping of the membership actions.
- **Request gate** (`Middleware`). It checks the `Bearer` header (section 2.1 of RFC 6750),
  asks the authentication service, synchronises the local user, records the identity on the
  request, and only then calls the handler.

All external systems live in one explicit world, `Backend.World`:

- the job store (Redis), as a map;
- the work queue (Celery): its jobs, its revoked handles and its next handle;
- the broker log (Kafka);
- the tables the ORM reads and writes, as sequences of rows;
- an ordered trace of every external call that took effect;
- which services are reachable during the run.

Every external call has two forms:

- a pure function from world to world and result;
- a method of the class `Backend.Env`, which performs the call on the mutable world and is
  specified by that function.

Each operation of the source is written the same way:

- a method on `Env`, with `ensures (env.State(), r) == XSpec(old(env.State()), ...)`;
- a specification function `XSpec`;
- lemmas about `XSpec`, which state what the source promises.

Inputs the program cannot see are parameters of the model:

- new primary keys (`newId`);
- the current time (`now`);
- the availability of each service (`World.faults`);
- the authentication service's reply;
- the file service's answer for each file and slug.

## Model

| member | source | states |
|---|---|---|
| Uuids.Canonical | todocore/common/utils.py:9-10 | `str(uuid)` is 36 characters: hyphens at positions 8, 13, 18 and 23, lower-case hex digits everywhere else |
| Uuids.ParseCanonical | todocore/common/utils.py:9-10 | parsing the canonical form gives back the UUID |
| Uuids.CanonicalOfParse | todocore/common/utils.py:9-10 | whatever parses is already canonical, so text and UUID are in one-to-one correspondence |
| Uuids.CanonicalInjective | todocore/common/utils.py:9-10 | distinct UUIDs render as distinct strings |
| JsonEncoder.Default | todocore/common/utils.py:8-15 | the UUID test comes first and gives `str(uuid)`; a model record gives the dict of its declared fields; anything else raises `TypeError` with its type name; a substitute is always smaller than the object it replaces |
| JsonEncoder.DumpsSucceedsIff | todocore/common/utils.py:8-15 | `json.dumps(v, cls=CustomJSONEncoder)` succeeds exactly when nothing inside `v` is an unsupported object |
| JsonEncoder.DumpsItemsIff | todocore/common/kafka_producers.py:26 | a list encodes exactly when every item does, one element per item |
| JsonEncoder.DumpsEntriesShape | todocore/common/kafka_producers.py:26 | a dict encodes member by member: the same keys in the same order, each value encoded |
| JsonEncoder.DumpsUuid | todocore/common/utils.py:9-10 | a UUID anywhere in a payload encodes as its 36-character canonical string |
| JsonEncoder.DumpsRecord | todocore/common/utils.py:12-13 | a model record encodes as the object of its declared fields: one member per field, named after the field, holding the field's encoded value |
| JsonEncoder.DumpsUnsupported | todocore/common/utils.py:15 | any other object is rejected with its type name |
| Events.EventNameValuesDistinct | todocore/common/event.py:9-17 | the eight event names have eight distinct values |
| Events.BuildEvent | todocore/common/event.py:22-38 | the envelope has exactly the keys `event_type`, `event_name`, `received_by`, `model_type`, `model_data` and `entity_id`, in that order, each with the value given for it; the defaults are "ModelEvent" and "analytics" |
| Events.EnvelopeEncodes | todocore/common/event.py:31-38 | the encoded envelope carries the four strings as given and the payload and entity id as encoded; encoding fails exactly when one of those two cannot be encoded |
| Events.EnvelopeEncodesIff | todocore/common/event.py:31-38 | the envelope encodes exactly when its payload and its entity id do |
| Events.EnvelopeMembers | todocore/common/event.py:31-38 | an encoded envelope is an object: its four string members are the strings given, and its `model_data` and `entity_id` members are the encodings of the values given |
| Events.FirstNotIn | todocore/common/event.py:41-49 | argument binding: the first keyword that names no parameter, or the first required parameter no keyword supplies; None exactly when there is none |
| Events.FirstNotInIsFirst | todocore/common/event.py:41-49 | `TypeError` names the earliest offending name, whatever follows it |
| Events.SendEvent | todocore/common/event.py:41-59 | `send_event` as written: log the line, then call `produce_message` once with the topic and an envelope of the default type |
| Events.SendEventAlwaysModelEvent | todocore/common/event.py:51-57 | whatever the caller passes, the message `send_event` puts on the broker says `event_type` "ModelEvent" |
| Events.RaisesForEventType | todocore/common/event.py:41-49 | a call whose first keyword unknown to `send_event` is `event_type` raises `TypeError` for that keyword |
| Events.TaskSaveCallBinding | todocore/task/api/serializers.py:61-68 | the keywords of the task create and update calls fail to bind against `send_event`, and bind once it has an `event_type` parameter |
| Events.DeleteCallBinding | todocore/task/api/serializers.py:90-96 | the same for the task-delete, role-change and both destroy calls |
| Events.ProjectCreateCallBinding | todocore/projects/api/serializers.py:26-33 | the same for the project-create call |
| Events.ProjectSaveCallBinding | todocore/projects/api/serializers.py:52-59 | the same for the project-update and member-create calls |
| Events.RetrieveCallBinding | todocore/projects/api/v1/views.py:52-59 | the same for the project-retrieve call |
| Events.ListCallBinding | todocore/projects/api/v1/views.py:65-70 | the same for the project-list call |
| Events.SendTypedEvent | todocore/common/event.py:41-59 | `send_event` with `event_type` forwarded to `build_event`: the log line, then one `produce_message` call |
| Events.SendEventIsDefaultTyped | todocore/common/event.py:51-57 | `send_event` as written is the typed send with the default type "ModelEvent" |
| Events.SendEventCall | todocore/common/event.py:41-59 | one call site's event call: as written, the keywords are bound against `send_event`'s parameters and a binding failure is raised before anything happens, otherwise the default-typed send; intended, the typed send with the caller's type |
| Events.EventCallFrames | todocore/common/event.py:41-59 | whatever the signature and the outcome, an event call leaves the job store, the queue, the tables and the faults unchanged |
| Events.TypedEventDelivered | todocore/common/event.py:51-59 | with the producer accepting, exactly one message is appended, on the topic under `MESSAGE_KEY`; its envelope has the caller's type, name, model type, payload and entity id; the trace gains the five delivery entries in order; store, queue and tables are unchanged |
| Events.TypedEventRaisesIff | todocore/common/event.py:51-59 | an event raises exactly when the producer cannot be built, the payload or entity id cannot be encoded, or the producer fails with an exception it does not catch |
| Events.TypedEventResultIgnoresPayload | todocore/common/event.py:51-59 | with the same faults, two typed events whose payloads both encode have the same result, whatever else the two worlds hold |
| KafkaProducers.ProduceMessage | todocore/common/kafka_producers.py:18-40 | `produce_message`: build a producer; encode the payload; produce and flush; log success; or classify and log a caught failure |
| KafkaProducers.ProduceDelivers | todocore/common/kafka_producers.py:28-31 | a message the producer accepts and delivers goes once to the given topic under `MESSAGE_KEY`, and is flushed before the success line; nothing else changes |
| KafkaProducers.ProduceLogsUndelivered | todocore/common/kafka_producers.py:28-31 | a message the producer accepts but never delivers: `flush` still returns, the call succeeds and logs the success line, and the broker is unchanged |
| KafkaProducers.DeliveryInvisibleToCaller | todocore/common/kafka_producers.py:28-31 | delivery and loss give the caller the same result and the same trace; only the broker differs |
| KafkaProducers.ProduceSwallowsBrokerFailures | todocore/common/kafka_producers.py:32-40 | a `KafkaException` is logged by its code (timeout, no brokers, other) and a `ConnectionError` is logged; the call returns normally and nothing is sent |
| KafkaProducers.ProduceRaisesIff | todocore/common/kafka_producers.py:19-40 | the call raises exactly for a producer that cannot be built, an unencodable payload, or an exception other than the two caught; the broker grows, by at most one message, exactly when the producer accepts and delivers an encodable payload, so a success may have sent nothing |
| KafkaProducers.ProducerPerCall | todocore/common/kafka_producers.py:19-23 | every call past construction builds its own producer, first among its effects |
| KafkaProducers.ProduceFrames | todocore/common/kafka_producers.py:18-40 | a call touches only the broker and the trace |
| CeleryMixin.RedisKey | todocore/common/mixins/celery_mixin.py:26 | the key is `"task: " + type + ": " + str(id)` |
| CeleryMixin.RedisKeyInjective | todocore/common/mixins/celery_mixin.py:26 | equal keys mean the same entity; the job-type half is trivial while `TaskTypeCelery` has its one member |
| CeleryMixin.ScheduleTask | todocore/common/mixins/celery_mixin.py:15-28 | `schedule_task`: submit the job, then store its handle |
| CeleryMixin.RevokeTask | todocore/common/mixins/celery_mixin.py:31-43 | `revoke_task`: look the key up; if a handle is stored, revoke it and delete the key |
| CeleryMixin.RescheduleTask | todocore/common/mixins/celery_mixin.py:45-60 | `reschedule_task`: nothing for an unchanged deadline; otherwise revoke, then schedule |
| CeleryMixin.ScheduleStoresHandle | todocore/common/mixins/celery_mixin.py:25-28 | one job with args `[task_id]` at `eta`, under a fresh handle; that handle is stored under the entity's key and returned; nothing else changes |
| CeleryMixin.ScheduleOverwritesWithoutRevoking | todocore/common/mixins/celery_mixin.py:27 | an existing key is overwritten, and the job it named stays live |
| CeleryMixin.ScheduleFailures | todocore/common/mixins/celery_mixin.py:25-27 | an unreachable queue fails before any effect; an unreachable store fails after the job was submitted, leaving it live and unrecorded |
| CeleryMixin.RevokeWithoutHandleIsNoop | todocore/common/mixins/celery_mixin.py:40-41 | with no stored handle, only the key is read: nothing is revoked or deleted |
| CeleryMixin.RevokeCancelsStoredHandle | todocore/common/mixins/celery_mixin.py:41-43 | with a stored handle, exactly that job is revoked and exactly that key removed |
| CeleryMixin.RescheduleSameDeadlineIsNoop | todocore/common/mixins/celery_mixin.py:56-60 | equal deadlines return None and change nothing |
| CeleryMixin.RescheduleRevokesThenSchedules | todocore/common/mixins/celery_mixin.py:56-59 | different deadlines revoke first, then schedule at `new - 3600` with the same type; the result is the new job |
| CeleryMixin.RescheduleReplacesJob | todocore/common/mixins/celery_mixin.py:56-59 | end to end: the old job is revoked; a new live job is due one hour before the new deadline; the key names the new job |
| CeleryMixin.OtherKeysUntouched | todocore/common/mixins/celery_mixin.py:19-43 | each operation touches only the key of its own `(type, id)`; the default type is `SEND_MAIL` |
| CeleryMixin.ScheduleThenRevokeLeavesNoKey | todocore/common/mixins/celery_mixin.py:25-43 | schedule then revoke of one entity leaves no key and the job revoked |
| CeleryMixin.OperationsKeepHandlesIssued | todocore/common/mixins/celery_mixin.py:25-59 | every handle the store or the queue mentions was issued by the queue, before and after each operation |
| LegacyCeleryMixin.KeysNeverMeet | todocore/common/mixins.py:22-29 | the key `revoke_task` reads and the key `schedule_task` writes are never equal, for any two ids |
| LegacyCeleryMixin.ScheduleTask | todocore/common/mixins.py:17-23 | the older `schedule_task`: submit, then store the handle under `"task: {id}"` |
| LegacyCeleryMixin.RevokeTask | todocore/common/mixins.py:25-32 | the older `revoke_task`: read `"task : {id}"`; on a hit, revoke and delete `"task: {id}"` |
| LegacyCeleryMixin.RescheduleTask | todocore/common/mixins.py:34-42 | the older `reschedule_task` over these two operations |
| LegacyCeleryMixin.ScheduleKeepsNoSpacedKeys | todocore/common/mixins.py:22 | scheduling never creates a key of the form `revoke_task` reads |
| LegacyCeleryMixin.ScheduleThenRevokeLeavesJobLive | todocore/common/mixins.py:22-32 | schedule then revoke cancels nothing and deletes nothing: the job stays live and its key stays stored |
| LegacyCeleryMixin.RevokeHitDeletesOtherKey | todocore/common/mixins.py:29-32 | if the spaced key is present after all, its job is revoked but the other spelling is deleted, so the key read stays |
| LegacyCeleryMixin.RescheduleSameDeadlineIsNoop | todocore/common/mixins.py:38-42 | equal deadlines return None and change nothing |
| LegacyCeleryMixin.RescheduleLeavesOldJobLive | todocore/common/mixins.py:38-41 | a changed deadline schedules at `new - 3600` and overwrites the key, and the old job is never revoked: two reminders are live |
| CommonPermissions.NoRoleFailsBoth | todocore/common/permissions.py:4-11 | a request without a role passes neither `IsAdmin` nor `IsUser` |
| CommonPermissions.AdminAndUserExclusive | todocore/common/permissions.py:4-11 | no request passes both; each holds for exactly its role |
| CommonPermissions.RoleVerdict | todocore/projects/api/permissions.py:21-32 | after a membership lookup: granted exactly for one row whose role is allowed; denied for no row; several rows raise `MultipleObjectsReturned` |
| CommonPermissions.RoleVerdictMonotone | todocore/projects/api/permissions.py:27 | allowing more roles never turns a grant into a denial |
| ProjectPermissions.ProjectFromKwargs | todocore/projects/api/permissions.py:16 | `project_pk`, else `id` |
| ProjectPermissions.ProjectOfObject | todocore/projects/api/permissions.py:38-41 | a project's own id, otherwise the object's `project_id` |
| ProjectPermissions.AdminAlwaysGranted | todocore/projects/api/permissions.py:12-36 | an admin is granted at both levels whatever the tables |
| ProjectPermissions.KwargsFallback | todocore/projects/api/permissions.py:16-19 | a non-admin with neither keyword is denied; `id` is used only without `project_pk` |
| ProjectPermissions.GrantedIffAllowedRole | todocore/projects/api/permissions.py:21-32 | a non-admin is granted exactly when their single membership in the project has an allowed role; non-members are denied |
| ProjectPermissions.ObjectGrantedIffAllowedRole | todocore/projects/api/permissions.py:38-56 | the same at object level, for the object's project; an object naming no project is denied |
| ProjectPermissions.OwnerOnly | todocore/projects/api/permissions.py:59-62 | `IsProjectOwner` grants a non-admin only an "Owner" membership |
| ProjectPermissions.HasProjectRoleMonotone | todocore/projects/api/permissions.py:65-68 | `HasProjectRole` uses exactly the roles given, and a wider list never denies what a narrower one granted |
| TaskPermissions.AdminAlwaysGranted | todocore/task/api/permissions.py:12-44 | an admin passes both checks whatever the action, data and tables |
| TaskPermissions.OnlyCreateIsChecked | todocore/task/api/permissions.py:16-40 | `list` and every action other than `create` pass `has_permission` |
| TaskPermissions.CreateDecidedByMembership | todocore/task/api/permissions.py:20-37 | for `create`: no project denies; otherwise granted exactly when the one membership row has an allowed role; non-members are denied |
| TaskPermissions.ObjectDecidedByMembership | todocore/task/api/permissions.py:46-55 | a non-admin reaches a task exactly when their membership in its project has an allowed role |
| TaskPermissions.AssigneeIff | todocore/task/api/permissions.py:58-68 | with the empty class-level role list, `IsAssignee` grants exactly an admin or the framework user the task is assigned to, unless the lookup raised |
| TaskPermissions.AssigneeIgnoresLocalUserId | todocore/task/api/permissions.py:63 | the assignee test compares with `request.user.id`, so a member with any role who is not that user is denied |
| TaskPermissions.HasTaskRoleMonotone | todocore/task/api/permissions.py:71-74 | `HasTaskRole` uses exactly its roles, and a wider list never denies what a narrower one granted |
| FileMixin.AsList | todocore/common/mixins/file_mixin.py:16-17 | a single file becomes the one-element list; a list stays as it is |
| FileMixin.Instance.Slugs | todocore/common/mixins/file_mixin.py:19 | `getattr(instance, name, [])` |
| FileMixin.Instance.SetSlugs | todocore/common/mixins/file_mixin.py:31 | `setattr`: exactly that attribute takes the new slugs; nothing is saved |
| FileMixin.Instance.Save | todocore/common/mixins/file_mixin.py:32 | `instance.save()`: one more save, with the attributes unchanged |
| FileMixin.FileService.Upload | todocore/common/mixins/file_mixin.py:22 | one upload call is recorded; the answer is the service's slug or `FileUploadError` |
| FileMixin.FileService.Delete | todocore/common/mixins/file_mixin.py:28 | one delete call is recorded; the answer is success or `FileDeleteError` |
| FileMixin.UploadAll | todocore/common/mixins/file_mixin.py:20-25 | the upload loop: calls and slugs as in the loop's specification, stopping at the first failure |
| FileMixin.DeleteAll | todocore/common/mixins/file_mixin.py:26-30 | the delete loop: calls as in the loop's specification, stopping at the first failure |
| FileMixin.UpdateFileField | todocore/common/mixins/file_mixin.py:13-33 | `update_file_field`: the new service calls, attributes, save count and result are those of `UpdateSpec` |
| FileMixin.UploadsStopAtFailure | todocore/common/mixins/file_mixin.py:20-24 | once an upload has failed, later files are never reached |
| FileMixin.DeletesStopAtFailure | todocore/common/mixins/file_mixin.py:26-30 | once a delete has failed, later slugs are never reached |
| FileMixin.UploadsShape | todocore/common/mixins/file_mixin.py:20-25 | uploads happen in file order up to the first failing one; the loop fails exactly when some file fails; otherwise one slug per file, in order |
| FileMixin.DeletesShape | todocore/common/mixins/file_mixin.py:26-30 | deletes happen in slug order up to the first failing one, and the loop fails exactly when some delete fails |
| FileMixin.FalsyIsNoop | todocore/common/mixins/file_mixin.py:14-15 | a missing value or an empty list: no calls, no change, no save |
| FileMixin.SingleIsOneElementList | todocore/common/mixins/file_mixin.py:16-17 | a single file behaves exactly as the list holding only it |
| FileMixin.UploadsBeforeDeletes | todocore/common/mixins/file_mixin.py:20-30 | every upload call precedes every delete call |
| FileMixin.UpdateSucceeds | todocore/common/mixins/file_mixin.py:18-32 | on success the slug attribute becomes exactly the uploaded slugs in file order; every old slug is deleted after all uploads; one save |
| FileMixin.EachOldSlugDeletedOnce | todocore/common/mixins/file_mixin.py:26-30 | on success each old slug is deleted as many times as it occurs among the old slugs |
| FileMixin.UploadFailureChangesNothing | todocore/common/mixins/file_mixin.py:21-24 | an upload failure raises "File upload failed" before any delete; slugs unchanged; no save |
| FileMixin.DeleteFailureOrphansUploads | todocore/common/mixins/file_mixin.py:27-31 | a delete failure raises "Old file deletion failed" after every upload; slugs unchanged, the uploaded slugs recorded nowhere; no save |
| FileMixin.SavedIffSucceeded | todocore/common/mixins/file_mixin.py:31-32 | the instance is saved exactly when the call returns normally after doing work, and only then do the attributes change |
| FileMixin.MissingAttributeDeletesNothing | todocore/common/mixins/file_mixin.py:19 | a missing slug attribute counts as no old slugs: no delete calls |
| ProjectService.AddUserOnProject | todocore/projects/api/service.py:41-69 | `add_user_on_project`: the checks, then one insert |
| ProjectService.AddUserErrorOrder | todocore/projects/api/service.py:42-67 | errors come in this order: missing user id; missing or unknown position; invalid role; unknown user; duplicate membership. Every error writes nothing |
| ProjectService.AddUserInsertsOneRow | todocore/projects/api/service.py:69 | on success one row is appended, with the given project, user, position, and role or "Reader"; nothing else changes |
| ProjectService.AddUserSucceedsIff | todocore/projects/api/service.py:42-69 | adding succeeds exactly when every check passes and the new key is unused |
| ProjectService.ChangeUserRoleOnProject | todocore/projects/api/service.py:72-85 | `change_user_role_on_project` with the default role "Developer" |
| ProjectService.ChangeRoleTouchesOnlyThatRole | todocore/projects/api/service.py:72-85 | the role is validated before the lookup; a non-member gets "User is not in the project."; otherwise only the role of the one membership row changes |
| ProjectService.DeleteUserOnProject | todocore/projects/api/service.py:88-92 | `delete_user_on_project`: the existence check, then the filtered delete |
| ProjectService.DeleteUserRemovesAllPositions | todocore/projects/api/service.py:89-92 | a non-member is refused and nothing changes; otherwise every row of that user in that project goes, whatever the position, and every other row stays |
| ProjectService.AssignAllProjectFields | todocore/projects/api/service.py:24-25 | each field ends with the last value given for it; a field not given keeps its value; the key never changes |
| ProjectService.UpdateProject | todocore/projects/api/service.py:23-27 | `update_project`: the assignments in order, then one save |
| ProjectService.UpdateProjectSavesOnce | todocore/projects/api/service.py:23-27 | one save: the row with that key becomes the assigned row, and no other row of any table changes |
| TaskService.ProjectId | todocore/task/api/service.py:10 | the relation's `.id`, or the raw value |
| TaskService.IsExist | todocore/task/api/service.py:8-16 | a missing project id raises, then an empty title raises; otherwise true exactly when a task has that project and title |
| TaskService.GetTaskById | todocore/task/api/service.py:23-27 | the row with that id, or `NotFound("Task not found.")` exactly when there is none |
| TaskService.CreateTask | todocore/task/api/service.py:30-37 | `create_task`: the duplicate check, the insert, and the re-wrapping of errors; an omitted description or status is stored as "" |
| TaskService.CreateTaskWrapsEveryError | todocore/task/api/service.py:36-37 | every failure is one `ValidationError({"error": ...})` around the original exception, and the tables and trace are as before |
| TaskService.CreateTaskRejectsDuplicate | todocore/task/api/service.py:32-35 | a task with the same project and title is refused, and nothing is inserted |
| TaskService.CreateTaskInsertsOneRow | todocore/task/api/service.py:35 | on success exactly one row is appended under the new key, holding the data's title, deadline, assignee, project and creator, and its description and status or "" for either one omitted |
| TaskService.CreateTaskDefaultsText | todocore/task/models.py:6-14 | for a project instance, a new title and a fresh key: omitting the description or the status still inserts the row, with "" there; the create fails with a wrapped `IntegrityError`, and writes nothing, exactly when the deadline, the assignee or the creator is missing |
| TaskService.AssignAllTaskResult | todocore/task/api/service.py:42-43 | assignment fails exactly when a bare id is given for a relation; otherwise the key is kept and the deadline is the last one given, or the old one |
| TaskService.AssignStopsAtError | todocore/task/api/service.py:42-43 | once an assignment raises, later ones have no effect |
| TaskService.UpdateTask | todocore/task/api/service.py:40-47 | `update_task`: the assignments, then one save |
| TaskService.UpdateTaskOutcome | todocore/task/api/service.py:40-47 | a bare relation id fails, re-wrapped, before the save, and the row is untouched; otherwise the one save writes the assigned row |
| TaskSerializers.ValidateAssigneeAndProject | todocore/task/api/serializers.py:14-31 | nothing is checked unless both ids are given; then unknown assignee, unknown project and non-member assignee fail, in that order; otherwise the data comes back unchanged |
| TaskSerializers.Validate | todocore/task/api/serializers.py:39-53 | on update only the assignee/project check runs. On creation: a missing deadline raises `TypeError`; a deadline before `now` is rejected and one equal to `now` is not; a duplicate `(title, project, assignee)` is rejected |
| TaskSerializers.RepresentationEncodes | todocore/task/api/serializers.py:60 | the full representation and the partial one are serializable dicts whose `id` is the task's canonical id |
| TaskSerializers.PartialRepresentationEncodes | todocore/task/api/serializers.py:105 | the partial serializer's representation is a serializable dict whose `id` is the task's canonical id |
| TaskSerializers.RepresentationsDifferInCreator | todocore/task/api/serializers.py:105 | the partial representation, from the serializer that excludes `created_by`, has no `created_by` key; the full one is the same entries followed by `created_by` |
| TaskSerializers.TaskEventRaisesAsWritten | todocore/task/api/serializers.py:61-68 | as written, a task save event's call raises `TypeError` for `event_type` and changes nothing |
| TaskSerializers.TaskEventFrames | todocore/task/api/serializers.py:61-68 | whatever the signature, a task event's call leaves the job store, the queue, the tables and the faults alone |
| TaskSerializers.SaveEventOutcome | todocore/task/api/serializers.py:61-69 | the event step of a save returns the row when the intended event goes out, raises `TypeError` as written, and changes no table, queue or store either way |
| TaskSerializers.Create | todocore/task/api/serializers.py:55-69 | `create`: insert, schedule, then the event call, for either signature |
| TaskSerializers.CreateInsertsAndSchedules | todocore/task/api/serializers.py:57-68 | with every service up: the row is inserted; one reminder for the new id is due one hour before the deadline; its handle is stored under the task's key. Intended, the new row is returned; as written, `TypeError` is raised and nothing is sent |
| TaskSerializers.CreateEmitsEvent | todocore/task/api/serializers.py:60-68 | intended: one "create" task event for the new id on the models topic, whose `model_data` is the encoded full representation |
| TaskSerializers.CreateAsWrittenWritesThenRaises | todocore/task/api/serializers.py:57-68 | as written, a create with every service up ends with the row inserted and the reminder scheduled and stored, and raises `TypeError` |
| TaskSerializers.CreateComposes | todocore/task/api/serializers.py:57-68 | with every service up, a create is its writes followed by its event step |
| TaskSerializers.CreateEffectOrder | todocore/task/api/serializers.py:57-68 | the effects come in order: insert, submit, store, then (intended) the five delivery entries; as written the trace ends with the store write |
| TaskSerializers.CreateKeepsRowWhenQueueDown | todocore/task/api/serializers.py:57-59 | with the queue down, the row stays inserted, with no reminder and no event |
| TaskSerializers.TaskEventDelivered | todocore/task/api/serializers.py:77-85 | intended, a task event is one message with the chosen representation as `model_data` under the task's id; store, queue and tables are unchanged |
| TaskSerializers.LastDeadlineGiven | todocore/task/api/serializers.py:124 | the data sets the deadline exactly when `"deadline"` is among its keys |
| TaskSerializers.SaveFieldsOf | todocore/task/api/serializers.py:73 | `super().update`: the attribute loop and the save |
| TaskSerializers.AfterSaveOf | todocore/task/api/serializers.py:74-85 | reschedule when asked, then the update event's call |
| TaskSerializers.Update | todocore/task/api/serializers.py:71-86 | `TaskSerializer.update`: save, reschedule with both deadlines, then the event call with the full representation |
| TaskSerializers.PartialUpdate | todocore/task/api/serializers.py:120-139 | `TaskPartialUpdateSerializer.update`: reschedule only for a given, changed deadline; the event call carries the partial representation, without `created_by` |
| TaskSerializers.UpdateSameDeadlineKeepsReminder | todocore/task/api/serializers.py:72-76 | an update that leaves the deadline unchanged touches neither the store nor the queue, for both serializers |
| TaskSerializers.UpdateMovesReminder | todocore/task/api/serializers.py:72-76 | with a changed deadline, every service up and a reminder on record, for either signature: the old reminder is revoked, and one live reminder is due one hour before the new deadline |
| TaskSerializers.UpdateThroughReschedule | todocore/task/api/serializers.py:71-86 | once the save and the reschedule succeed, an update ends as its event step leaves the world |
| TaskSerializers.UpdateAsWrittenRaisesAfterSave | todocore/task/api/serializers.py:71-86 | as written, an update never succeeds: the row is saved and the reminder moved exactly as intended, then `TypeError` is raised and nothing is sent |
| TaskSerializers.RescheduleFramesBroker | todocore/common/mixins/celery_mixin.py:45-60 | a reschedule touches neither the broker nor the tables |
| TaskSerializers.PartialUpdateAgreesWithUpdate | todocore/task/api/serializers.py:124-127 | the partial update's extra guard and narrower payload change nothing but the message: both serializers return the same result and leave the same store, queue and tables; as written, where nothing is sent, the same world |
| TaskSerializers.AfterRescheduleAgrees | todocore/task/api/serializers.py:129-137 | the update event's call with the partial payload and with the full payload, on worlds alike in store, queue, tables and faults, give the same result and keep them alike |
| TaskSerializers.Delete | todocore/task/api/serializers.py:88-97 | `delete`: revoke, the event call, then delete, for either signature |
| TaskSerializers.DeleteRevokesEmitsThenDeletes | todocore/task/api/serializers.py:88-97 | intended, with every service up: the stored reminder is revoked and its key dropped; then the delete event is sent; then the row is deleted; the trace says so in that order |
| TaskSerializers.DeleteAsWrittenKeepsRow | todocore/task/api/serializers.py:88-97 | as written, a delete revokes the reminder and then raises `TypeError`: the row is never deleted and nothing is sent |
| TaskSerializers.DeleteKeepsRowOnFailure | todocore/task/api/serializers.py:88-97 | for either signature, a failing revoke or a failing event call stops the delete, and the row is still there |
| ProjectSerializers.ProjectPayloadEncodes | todocore/projects/api/serializers.py:24-41 | both project representations are serializable dicts keyed by the project's id; only the full one has `created_by`, which the partial serializer excludes |
| ProjectSerializers.MemberRepresentation | todocore/projects/api/serializers.py:84 | the representation of a membership is a serializable dict |
| ProjectSerializers.CreateProject | todocore/projects/api/serializers.py:14-35 | project `create`: the two checks, the insert, then the event call, for either signature |
| ProjectSerializers.CreateProjectChecksFirst | todocore/projects/api/serializers.py:15-22 | for either signature, a missing `created_by`, then a duplicate `(title, created_by)`, is refused before any write or event |
| ProjectSerializers.CreateProjectEmits | todocore/projects/api/serializers.py:22-33 | intended: a successful create inserts the row, then sends one "create" project event on the models topic with the new id and the full representation |
| ProjectSerializers.CreateProjectAsWrittenInsertsThenRaises | todocore/projects/api/serializers.py:22-33 | as written, a create that passes both checks inserts the row and then raises `TypeError`, or the insert's error |
| ProjectSerializers.PartialUpdateProject | todocore/projects/api/serializers.py:48-61 | the partial update: the save, then the event call with the partial representation |
| ProjectSerializers.PartialUpdateEmitsAfterSave | todocore/projects/api/serializers.py:48-59 | intended: the update event comes only after the row is saved, names the project and carries the saved row's partial representation, without `created_by` |
| ProjectSerializers.PartialUpdateProjectAsWrittenSavesThenRaises | todocore/projects/api/serializers.py:48-59 | as written, the partial update saves and then raises `TypeError`, or the save's error |
| ProjectSerializers.CreateMember | todocore/projects/api/serializers.py:69-95 | membership `create`: the duplicate check, the insert, then the event call |
| ProjectSerializers.CreateMemberOutcome | todocore/projects/api/serializers.py:69-93 | a duplicate `(project, user, position)` is refused with nothing written; otherwise, intended, one row with the given role or "Reader" is appended, then an "add_on_project" event goes to the events topic |
| ProjectSerializers.CreateMemberAsWrittenInsertsThenRaises | todocore/projects/api/serializers.py:80-93 | as written, a membership create that is not a duplicate inserts the row and then raises `TypeError`, or the insert's error |
| ProjectSerializers.UpdateRole | todocore/projects/api/serializers.py:103-116 | role `update`: assign, save, then the event call |
| ProjectSerializers.UpdateRoleOutcome | todocore/projects/api/serializers.py:103-114 | a missing role makes the save raise `IntegrityError`, with no event, for either signature; intended, a given role is saved on that row alone, then a "change_role_on_project" event with null model data follows |
| ProjectSerializers.UpdateRoleWithoutRole | todocore/projects/api/serializers.py:104-106 | without a role the save raises `IntegrityError` and nothing else happens, whatever the signature and the producer |
| ProjectSerializers.UpdateRoleAsWrittenSavesThenRaises | todocore/projects/api/serializers.py:103-114 | as written, a role update saves the role and then raises `TypeError`, or the save's error |
| ProjectSerializers.UpdateAvatars | todocore/projects/api/serializers.py:127-130 | the avatar update is the file mixin on `logo_slugs` with the `avatars` list |
| ProjectViews.ProjectSerializerClass | todocore/projects/api/v1/views.py:37-40 | the partial serializer exactly for `update` and `partial_update`; otherwise the create serializer |
| ProjectViews.MemberSerializerClass | todocore/projects/api/v1/views.py:95-98 | the update serializer exactly for `update`, `partial_update` and `update_user_role` |
| ProjectViews.ResolveUserId | todocore/projects/api/v1/views.py:110-114 | the URL `user_id`, else the body's `user`, else its `user_id` |
| ProjectViews.GetObject | todocore/projects/api/v1/views.py:107-122 | "User ID is required." exactly when no id is given; "ProjectUser not found" exactly when there is no membership; a found row is the membership of that project and user; several rows raise `MultipleObjectsReturned` |
| ProjectViews.KwargTakesPrecedence | todocore/projects/api/v1/views.py:110-114 | when the URL gives an id, the body's ids play no part |
| ProjectViews.AsResponse | todocore/projects/api/v1/views.py:143-146 | `ObjectDoesNotExist` and DRF `ValidationError` become a 400 with that error; every other exception escapes; success passes the result through |
| ProjectViews.GetProject | todocore/projects/api/v1/views.py:100-105 | `get_object_or_404(Project, id=...)`: the project with that id, or not-found exactly when there is none |
| ProjectViews.Retrieve | todocore/projects/api/v1/views.py:49-60 | `retrieve`: the response data, then the event call |
| ProjectViews.RetrieveEmitsWithEntity | todocore/projects/api/v1/views.py:49-60 | intended: an existing project's retrieve returns its representation and sends one "get_project" event on the events topic; the event names the project's id and carries the response data |
| ProjectViews.RetrieveAsWrittenRaises | todocore/projects/api/v1/views.py:49-60 | as written, a retrieve never answers: the lookup's error or `TypeError`, with nothing changed |
| ProjectViews.Representations | todocore/projects/api/v1/views.py:62-63 | the list response has one representation per project, in table order |
| ProjectViews.List | todocore/projects/api/v1/views.py:62-71 | `list`: the representations, then the event call |
| ProjectViews.ListEmitsWithoutEntity | todocore/projects/api/v1/views.py:65-70 | intended: the list event goes to the models topic with a null entity id and null model data |
| ProjectViews.ListAsWrittenRaises | todocore/projects/api/v1/views.py:62-71 | as written, a list always raises `TypeError`, with nothing changed |
| ProjectViews.DestroyProject | todocore/projects/api/v1/views.py:73-82 | project `perform_destroy`: the event call, then the delete |
| ProjectViews.DestroyProjectEmitsThenDeletes | todocore/projects/api/v1/views.py:73-82 | for either signature, a failing event call deletes nothing. Intended, with the producer up, the "delete_project" event precedes the delete in the trace, and the project, its memberships and its tasks are gone |
| ProjectViews.DestroyProjectAsWrittenDeletesNothing | todocore/projects/api/v1/views.py:73-82 | as written, `perform_destroy` raises `TypeError` before the delete, and nothing changes |
| ProjectViews.DestroyMember | todocore/projects/api/v1/views.py:130-139 | membership `perform_destroy`: the event call, then the delete |
| ProjectViews.DestroyMemberEmitsThenDeletes | todocore/projects/api/v1/views.py:130-139 | for either signature, a failing event call deletes nothing. Intended, with the producer up, the "delete_from_project" event on the events topic precedes the delete, and exactly that row is gone |
| ProjectViews.DestroyMemberAsWrittenDeletesNothing | todocore/projects/api/v1/views.py:130-139 | as written, the membership `perform_destroy` raises `TypeError` before the delete, and nothing changes |
| ProjectViews.AddUser | todocore/projects/api/v1/views.py:141-146 | `add_user`: the context's project, the membership create, the 400 mapping |
| ProjectViews.UpdateUserRole | todocore/projects/api/v1/views.py:148-153 | `update_user_role`: the membership lookup, the project lookup, the role update, the 400 mapping |
| ProjectViews.DeleteUser | todocore/projects/api/v1/views.py:155-164 | `delete_user`: the membership lookup, the destroy, the 400 mapping |
| ProjectViews.MemberActionsLookupFailures | todocore/projects/api/v1/views.py:110-164 | a missing user id or a missing membership is answered with a 400 and changes nothing; several memberships escape as `MultipleObjectsReturned` |
| ProjectViews.UpdateUserRoleWithoutRoleRaises | todocore/projects/api/serializers.py:104-106 | a role update that names no role escapes with `IntegrityError`, and nothing is written |
| ProjectViews.DuplicateMemberIsBadRequest | todocore/projects/api/v1/views.py:141-146 | a duplicate membership is answered with a 400 before anything is written |
| ProjectViews.MemberActionsAsWrittenRaise | todocore/projects/api/v1/views.py:141-164 | as written, `TypeError` is not among the caught classes: `add_user` and `update_user_role` escape with it after their write, and `delete_user` escapes with it having deleted nothing |
| Middleware.Split | todocore/common/middleware.py:36 | `str.split(" ")`: never empty, and no part holds the separator |
| Middleware.SplitJoin | todocore/common/middleware.py:36 | joining the parts gives back the string |
| Middleware.JoinSplit | todocore/common/middleware.py:36 | splitting a join of separator-free parts gives back the parts |
| Middleware.Token | todocore/common/middleware.py:36 | element `[1]` exists for every header starting with "Bearer ", and is the text after the scheme up to the next space |
| Middleware.TokenOfCredential | todocore/common/middleware.py:36 | "Bearer " followed by a space-free credential yields exactly that credential |
| Middleware.SyncUser | todocore/common/middleware.py:15-20 | `sync_user`: get or create the user with that auth id; `IntegrityError` becomes None |
| Middleware.SyncUserGetsOrCreates | todocore/common/middleware.py:15-20 | an existing user is returned and nothing changes. Otherwise one row is appended for that auth id. If the drawn primary key is taken, nothing is written and None is returned, and None comes only from that case |
| Middleware.NonApiPassesThrough | todocore/common/middleware.py:26-27 | a path outside `/api/` is forwarded with no header check, no authentication call and no change |
| Middleware.MissingBearerRefused | todocore/common/middleware.py:29-34 | an API request gets a 401 "Token is missing or invalid format", with no call and no change, exactly when the header is missing or does not start with "Bearer " |
| Middleware.RejectedTokenRefused | todocore/common/middleware.py:36-42 | a non-200 response gives a 401 "Invalid or expired token" after one call carrying the parsed token; no write, and the handler is not reached |
| Middleware.TransportFailureEscapes | todocore/common/middleware.py:38-40 | an exception raised by the call to the authentication service escapes the gate: no 401, no write, no identity, no handler |
| Middleware.ForwardedIff | todocore/common/middleware.py:25-55 | the handler is reached exactly for non-API paths and for accepted tokens whose user could be synchronised; the identity recorded is that user's row id and the auth id and role the service returned |
| Middleware.SyncFailureRaisesAttributeError | todocore/common/middleware.py:49-51 | when `sync_user` swallows the `IntegrityError`, `user.id` raises `AttributeError`, after the call and with no identity recorded |
| Middleware.AuthService.Get | todocore/common/middleware.py:38-40 | one recorded `GET` with that URL and header; the reply is the service's response or the transport exception it raises |
| Middleware.Handler.Handle | todocore/common/middleware.py:55 | the handler records the request as it sees it |
| Middleware.TokenRequired | todocore/common/middleware.py:24-57 | the gate's world, outcome, authentication calls (`{url}/users/me`, at most one) and recorded identity are those of `GateSpec`. The handler is called at most once, exactly when the outcome is forwarded, and sees the identity already set |
| Backend.Get | todocore/projects/api/permissions.py:22 | `objects.get`: no row exactly when nothing matches; a single row is the only match |
| Backend.Membership | todocore/projects/api/v1/views.py:120 | `ProjectUser.objects.get(project, user)`: a found row matches both; no row exactly when the user has no membership there |
| Backend.Filter | todocore/projects/api/service.py:92 | `filter`: a row is in the result exactly when it is in the table and matches |
| Backend.FilterCounts | todocore/projects/api/service.py:92 | each matching row occurs in the result as often as in the table, any other row not at all |
| Backend.FilterConcat | todocore/projects/api/service.py:92 | filtering keeps table order: the matches of a concatenation are those of its first part, then those of its second |
| Backend.FilterEmptyIff | todocore/task/api/service.py:16 | `filter(...).exists()` holds exactly when the filter is non-empty |
| Backend.Upsert | todocore/projects/api/service.py:26 | `save()`: an existing key is updated in place, position by position, keeping the table's length and every other row; a new key is appended; the saved row is always present |
| Backend.Env.Get | todocore/common/mixins/celery_mixin.py:40 | `redis_client.get` on the world |
| Backend.Env.Set | todocore/common/mixins/celery_mixin.py:27 | `redis_client.set` on the world |
| Backend.Env.Delete | todocore/common/mixins/celery_mixin.py:43 | `redis_client.delete` on the world |
| Backend.Env.ApplyAsync | todocore/common/mixins/celery_mixin.py:25 | `apply_async` on the world |
| Backend.Env.RevokeJob | todocore/common/mixins/celery_mixin.py:42 | `AsyncResult(id).revoke()` on the world |
| Backend.Env.NewProducer | todocore/common/kafka_producers.py:19-23 | `Producer(...)` on the world |
| Backend.Env.Produce | todocore/common/kafka_producers.py:28-29 | `produce` and `flush` on the world |
| Backend.Env.Execute | todocore/task/api/service.py:35 | one ORM write on the world |
| Backend.Env.WriteLog | todocore/common/event.py:58 | one log line, appended to the trace |

## Left out

- I/O: Redis, Celery, Kafka, the file service and the authentication service are replaced by
  the explicit world and by oracles. A Celery job id is a counter-issued handle rather than a
  random id. The mail send and the job body (`task/api/tasks.py`) are not part of this model.
- Concurrency: every operation runs alone. Two requests racing on one task's reminder are not
  modelled.
- Time: datetimes are integer seconds, and one hour is 3600. `timezone.now()` is a parameter.
- Logging: the trace records the log lines of `send_event` and `produce_message`. The
  `logger.info` calls of the permission classes and of the gate (the user data) are not
  recorded.
- Enum rendering: `f"{EventName.X}task"` is modelled as the member's value followed by the
  suffix. The output of that format on each Python version is not modelled.
- `projects/api/v1/views.py` imports `DynamicPermissionMixin` and `PermissionClass` from
  `common/utils.py`, which defines neither of them. As a result, the two `permission_map`
  tables, and the dispatch from an action to its permission classes, are not modelled. The
  permission classes themselves are.
- ProjectViews.List: the `ProjectFilter` query filter is not applied; the list holds every
  project.
- DRF field validation is not modelled. That covers required fields, `choices`, `max_length`,
  and the parsing of ids in the URL or the body. An id in the model is always a well-formed
  UUID. A malformed one, which Django rejects with its own `ValidationError`, is not modelled.
- Table constraints: the model enforces these and no others: the primary key on every insert;
  the NOT NULL `role` column of a membership, on insert and on save; the unique `auth_user_id`
  of a user; and, when a task is created, NOT NULL on its `deadline`, `assignee`, `project` and
  `created_by` columns. An omitted task `title`, `description` or `status` takes Django's
  default "" for a text column. Foreign-key existence and `created_at`/`updated_at` are not
  modelled.
- ProjectService.AddUserOnProject: a key present with the value None is treated as a missing
  key.
- JsonEncoder: the value kinds cover only what the core's payloads hold (None, booleans,
  integers, strings, lists, string-keyed dicts, UUIDs, model records and other objects by type
  name). Floats, dict keys that are not strings, and the encoder's circular-reference check are
  not modelled.
- File service: only its outcomes matter here, a slug or `FileUploadError` and success or
  `FileDeleteError`. Transport errors of the HTTP client are not modelled.
- Middleware.TokenRequired: a reply body that is not JSON, or whose `id` is not a UUID, is not
  modelled. A transport error of `requests.get` is modelled: it escapes the gate. Error replies are outcomes rather than rendered `JsonResponse` objects.
- Http404 from `get_object_or_404`, and the DRF exception handler that turns escaped exceptions
  into responses, are outcomes (`Raised`) rather than rendered responses.
- The remaining thin wrappers of `projects/api/service.py` and `task/api/service.py` are not
  modelled: `get_all_projects`, `get_project_by_id`, `create_project`, `delete_project`,
  `search_projects`, `get_all_tasks` and `delete_task`. They are one ORM call each, and none of
  the modelled paths calls them.
- CeleryMixin: `common/mixins/celery_mixin.py` imports `TaskTypeCelery` from `task.models`,
  which does not define it. The model's `CeleryMixin.TaskTypeCelery` has the one member the
  source names, `SEND_MAIL`. Its value `"send_mail"`, and so the exact Redis key, is an
  assumption; the key layout `"task: {type}: {id}"` is the source's.
- Every caller of `send_event` is modelled for both signatures (`Events.Signature`). The lemmas
  below state what a call site promises only for the intended signature. Each has an
  as-written companion, which states that the call raises `TypeError` and what was written
  before it.
- TaskSerializers.CreateEmitsEvent: the "create" event is promised for the intended signature
  only; as written, see `TaskSerializers.CreateAsWrittenWritesThenRaises`.
- TaskSerializers.DeleteRevokesEmitsThenDeletes: the event and the delete are promised for the
  intended signature only; as written, see `TaskSerializers.DeleteAsWrittenKeepsRow`.
- ProjectSerializers.CreateProjectEmits: the "create" project event is promised for the
  intended signature only; as written, see
  `ProjectSerializers.CreateProjectAsWrittenInsertsThenRaises`.
- ProjectSerializers.PartialUpdateEmitsAfterSave: the update event is promised for the
  intended signature only; as written, see
  `ProjectSerializers.PartialUpdateProjectAsWrittenSavesThenRaises`.
- ProjectSerializers.CreateMemberOutcome: the inserted row and the "add_on_project" event are
  promised for the intended signature only; as written, see
  `ProjectSerializers.CreateMemberAsWrittenInsertsThenRaises`.
- ProjectSerializers.UpdateRoleOutcome: the saved role and its event are promised for the
  intended signature only; the missing-role case holds for both. As written, see
  `ProjectSerializers.UpdateRoleAsWrittenSavesThenRaises`.
- ProjectViews.RetrieveEmitsWithEntity: the response and the "get_project" event are promised
  for the intended signature only; as written, see `ProjectViews.RetrieveAsWrittenRaises`.
  `retrieve` looks the project up twice, once inside `super().retrieve` and once in
  `get_object`. The model looks it up once: nothing is written between the two lookups, so
  both give the same row.
- ProjectViews.ListEmitsWithoutEntity: the list event is promised for the intended signature
  only; as written, see `ProjectViews.ListAsWrittenRaises`.
- ProjectViews.DestroyProjectEmitsThenDeletes and ProjectViews.DestroyMemberEmitsThenDeletes:
  the event and the delete are promised for the intended signature only; as written, see
  `ProjectViews.DestroyProjectAsWrittenDeletesNothing` and
  `ProjectViews.DestroyMemberAsWrittenDeletesNothing`.
- `task/api/serializers.py` imports `CeleryTaskMixin` from `common.mixins`. With the
  `common/mixins/` package present, the task serializers here use the package's scheduler
  (`CeleryMixin`). The older module `common/mixins.py` is modelled separately, as
  `LegacyCeleryMixin`.

## Findings

| source | as written | input that shows it | evidently intended | confidence | as-written member | corrected member |
|---|---|---|---|---|---|---|
| todocore/common/event.py:41-57 | `send_event` has no `event_type` parameter and never forwards a type to `build_event`, yet every call site passes `event_type=` | the task create call at todocore/task/api/serializers.py:61-68: binding its keywords raises `TypeError: unexpected keyword argument 'event_type'` | `send_event` accepts `event_type` and passes it on, so the envelope carries "MODEL" or "EVENT" | high (not executed) | Events.TaskSaveCallBinding | Events.TypedEventDelivered |
| todocore/common/mixins.py:22-32 | `revoke_task` reads the key `"task : {id}"`, but `schedule_task` writes `"task: {id}"` | `schedule_task(t, id, eta)` followed by `revoke_task(id)`: the lookup misses, and the job stays live with its key stored | `revoke_task` reads the key that `schedule_task` wrote, cancels that job and removes that key | high (not executed) | LegacyCeleryMixin.ScheduleThenRevokeLeavesJobLive | CeleryMixin.ScheduleThenRevokeLeavesNoKey |
