/**
 * The project serializers (projects/api/serializers.py): project create and partial update,
 * membership create and role update, each making an event call after its table write, and the
 * avatar update, which hands the upload to the file-slug mixin. Every event call passes
 * `event_type`, so each operation takes the signature `send_event` binds against: as written
 * the call raises `TypeError` after the write; with the intended signature the event is sent.
 */
module ProjectSerializers {
  import opened Wrappers
  import opened Uuids
  import opened JsonEncoder
  import opened Backend
  import opened KafkaProducers
  import opened ProjectService
  import Events
  import FileMixin

  // ---------------------------------------------------------------- representations

  /** `ProjectCreateUpdateSerializer.to_representation(project)`: every field. */
  function ProjectRepresentation(p: ProjectRow): PyValue {
    PDict(ProjectPartialRepresentation(p).entries + [Entry("created_by", PStr(Canonical(p.createdBy)))])
  }

  /** `ProjectPartialUpdateSerializer.to_representation(project)`: the fields without
      `created_by`, which that serializer excludes. */
  function ProjectPartialRepresentation(p: ProjectRow): PyValue {
    PDict([
      Entry("id", PStr(Canonical(p.id))),
      Entry("title", PStr(p.title)),
      Entry("description", PStr(p.description)),
      Entry("status", PStr(p.status))])
  }

  /** The payload of a project event: the partial serializer's representation or the full one. */
  function ProjectPayload(p: ProjectRow, partial: bool): PyValue {
    if partial then ProjectPartialRepresentation(p) else ProjectRepresentation(p)
  }

  /** Both representations are dictionaries that `json.dumps` accepts, keyed by the project's
      id first; only the full one carries the creator. */
  lemma ProjectPayloadEncodes(p: ProjectRow, partial: bool)
    ensures var v := ProjectPayload(p, partial);
      && v.PDict? && Serializable(v) && Events.Lookup(v.entries, "id") == Some(PStr(Canonical(p.id)))
      && Events.Lookup(v.entries, "created_by") == (if partial then None else Some(PStr(Canonical(p.createdBy))))
  {
    var e := ProjectPartialRepresentation(p).entries;
    Events.LookupAt(e, 0);
    Events.LookupAt(ProjectRepresentation(p).entries, 0);
    assert forall i :: 0 <= i < |e| ==> e[i].key in ["id", "title", "description", "status"];
    Events.LookupMissing(e, "created_by");
    Events.LookupAt(ProjectRepresentation(p).entries, |e|);
  }

  /** `self.to_representation(membership)` with the fields `id`, `user`, `position`, `role`. */
  function MemberRepresentation(m: MemberRow): (v: PyValue)
    ensures v.PDict? && Serializable(v)
  {
    PDict([
      Entry("id", PStr(Canonical(m.id))),
      Entry("user", PStr(Canonical(m.user))),
      Entry("position", PStr(Canonical(m.position))),
      Entry("role", if m.role.Some? then PStr(m.role.value) else PNone)])
  }

  // ---------------------------------------------------------------- project create

  /** The validated data of a project create; `created_by` may be missing. */
  datatype ProjectData = ProjectData(title: string, description: string, status: string, createdBy: Option<Uuid>)

  const CreatorRequired: Exc := DrfValidationError(FieldError("created_by", "This field is required."))

  function DuplicateTitle(title: string): Exc {
    DrfValidationError(FieldError("user", "Project with title " + title + " already exists."))
  }

  predicate SameTitleProject(db: Db, title: string, createdBy: Uuid) {
    Exists(db.projects, (p: ProjectRow) => p.title == title && p.createdBy == createdBy)
  }

  /** A project event's call: `call` is the keyword arguments of the call site. */
  function ProjectEventSpec(w: World, sig: Events.Signature, call: seq<Events.Keyword>, name: Events.EventName,
                            p: ProjectRow, partial: bool): (World, Result<(), Exc>)
  {
    Events.SendEventCallSpec(w, sig, call, Events.Label(name, "project"), "Project", ModelsTopic, "MODEL",
                             ProjectPayload(p, partial), PStr(Canonical(p.id)))
  }

  function CreateProjectSpec(w: World, sig: Events.Signature, data: ProjectData, newId: Uuid)
    : (World, Result<ProjectRow, Exc>)
  {
    if data.createdBy.None? then (w, Err(CreatorRequired))
    else if SameTitleProject(w.db, data.title, data.createdBy.value) then (w, Err(DuplicateTitle(data.title)))
    else
      var row := ProjectRow(newId, data.title, data.description, data.status, data.createdBy.value);
      var (w1, inserted) := Write(w, InsertProject(row));
      if inserted.Err? then (w1, Err(inserted.error))
      else
        var (w2, sent) := ProjectEventSpec(w1, sig, Events.ProjectCreateCall, Events.Create, row, false);
        (w2, if sent.Ok? then Ok(row) else Err(sent.error))
  }

  /** `ProjectCreateUpdateSerializer.create`; `newId` is the key the new row receives. */
  method CreateProject(env: Env, sig: Events.Signature, data: ProjectData, newId: Uuid) returns (r: Result<ProjectRow, Exc>)
    modifies env
    ensures (env.State(), r) == CreateProjectSpec(old(env.State()), sig, data, newId)
  {
    if data.createdBy.None? {
      return Err(CreatorRequired);
    }
    if SameTitleProject(env.db, data.title, data.createdBy.value) {
      return Err(DuplicateTitle(data.title));
    }
    var row := ProjectRow(newId, data.title, data.description, data.status, data.createdBy.value);
    var inserted := env.Execute(InsertProject(row));
    if inserted.Err? {
      return Err(inserted.error);
    }
    var sent := Events.SendEventCall(env, sig, Events.ProjectCreateCall, Events.Label(Events.Create, "project"), "Project",
                                     ModelsTopic, "MODEL", ProjectPayload(row, false), PStr(Canonical(row.id)));
    r := if sent.Ok? then Ok(row) else Err(sent.error);
  }

  /** Both checks come before the insert: a missing creator, then a title the creator already
      uses, and either failure leaves the world exactly as it was (no row, no event). */
  lemma CreateProjectChecksFirst(w: World, sig: Events.Signature, data: ProjectData, newId: Uuid)
    ensures data.createdBy.None? ==> CreateProjectSpec(w, sig, data, newId) == (w, Err(CreatorRequired))
    ensures data.createdBy.Some? && SameTitleProject(w.db, data.title, data.createdBy.value) ==>
      CreateProjectSpec(w, sig, data, newId) == (w, Err(DuplicateTitle(data.title)))
    ensures var (w', r) := CreateProjectSpec(w, sig, data, newId);
      r.Ok? ==> data.createdBy.Some? && !SameTitleProject(w.db, data.title, data.createdBy.value)
  {
  }

  /** Intended, a create that passes both checks appends the row and then emits one create
      event for its id on the models topic, whose payload is the full representation. */
  lemma CreateProjectEmits(w: World, data: ProjectData, newId: Uuid)
    requires w.faults.producer == Accepts && newId !in ProjectIds(w.db.projects)
    requires data.createdBy.Some? && !SameTitleProject(w.db, data.title, data.createdBy.value)
    ensures Dumps(ProjectRepresentation(ProjectRow(newId, data.title, data.description, data.status, data.createdBy.value))).Ok?
    ensures var row := ProjectRow(newId, data.title, data.description, data.status, data.createdBy.value);
      var (w', r) := CreateProjectSpec(w, Events.Intended, data, newId);
      && r == Ok(row)
      && w'.db == w.db.(projects := w.db.projects + [row])
      && Events.Delivered(w, w', ModelsTopic, "MODEL", Events.Label(Events.Create, "project"), "Project", JString(Canonical(newId)))
      && Events.MemberValue(w'.broker[|w.broker|].value.members, "model_data") == Some(Dumps(ProjectRepresentation(row)).value)
      && w'.trace == w.trace + [Inserted(Projects, newId)] + Events.DeliveryTrace(ModelsTopic, w'.broker[|w.broker|])
  {
    var row := ProjectRow(newId, data.title, data.description, data.status, data.createdBy.value);
    var w1 := w.(db := w.db.(projects := w.db.projects + [row]), trace := w.trace + [Inserted(Projects, newId)]);
    assert Write(w, InsertProject(row)) == (w1, Ok(()));
    DumpsUuid(newId);
    ProjectPayloadEncodes(row, false);
    Events.TypedEventDelivered(w1, Events.Label(Events.Create, "project"), "Project", ModelsTopic, "MODEL",
                               ProjectRepresentation(row), PStr(Canonical(newId)), Events.DefaultReceiver);
  }

  /** As written, a create that passes both checks inserts the row and then raises `TypeError`
      at the event call: the caller never gets the row back, and nothing is sent. */
  lemma CreateProjectAsWrittenInsertsThenRaises(w: World, data: ProjectData, newId: Uuid)
    requires data.createdBy.Some? && !SameTitleProject(w.db, data.title, data.createdBy.value)
    ensures var row := ProjectRow(newId, data.title, data.description, data.status, data.createdBy.value);
      var (w1, inserted) := Write(w, InsertProject(row));
      CreateProjectSpec(w, Events.AsWritten, data, newId)
        == (w1, Err(if inserted.Err? then inserted.error else Events.EventTypeRejected))
  {
    Events.ProjectCreateCallBinding();
  }

  // ---------------------------------------------------------------- project partial update

  function PartialUpdateProjectSpec(w: World, sig: Events.Signature, p: ProjectRow, data: seq<ProjectField>)
    : (World, Result<ProjectRow, Exc>)
  {
    var (w1, saved) := UpdateProjectSpec(w, p, data);
    if saved.Err? then (w1, Err(saved.error))
    else
      var (w2, sent) := ProjectEventSpec(w1, sig, Events.ProjectSaveCall, Events.Update, saved.value, true);
      (w2, if sent.Ok? then saved else Err(sent.error))
  }

  /** `ProjectPartialUpdateSerializer.update`: `ModelSerializer.update` (assign, then save),
      then the update event's call with the partial representation. */
  method PartialUpdateProject(env: Env, sig: Events.Signature, p: ProjectRow, data: seq<ProjectField>)
    returns (r: Result<ProjectRow, Exc>)
    modifies env
    ensures (env.State(), r) == PartialUpdateProjectSpec(old(env.State()), sig, p, data)
  {
    var saved := UpdateProject(env, p, data);
    if saved.Err? {
      return Err(saved.error);
    }
    var sent := Events.SendEventCall(env, sig, Events.ProjectSaveCall, Events.Label(Events.Update, "project"), "Project",
                                     ModelsTopic, "MODEL", ProjectPayload(saved.value, true), PStr(Canonical(saved.value.id)));
    r := if sent.Ok? then saved else Err(sent.error);
  }

  /** Intended, the update event is emitted only after the row was saved: the save comes first
      in the trace, and the event carries the project's id and the partial representation,
      without the creator. */
  lemma PartialUpdateEmitsAfterSave(w: World, p: ProjectRow, data: seq<ProjectField>)
    requires w.faults.producer == Accepts
    ensures Dumps(ProjectPartialRepresentation(AssignAllProject(p, data))).Ok?
    ensures var (w', r) := PartialUpdateProjectSpec(w, Events.Intended, p, data);
      && r == Ok(AssignAllProject(p, data))
      && Events.Delivered(w, w', ModelsTopic, "MODEL", Events.Label(Events.Update, "project"), "Project", JString(Canonical(p.id)))
      && Events.MemberValue(w'.broker[|w.broker|].value.members, "model_data")
         == Some(Dumps(ProjectPartialRepresentation(AssignAllProject(p, data))).value)
      && w'.trace == w.trace + [Saved(Projects, p.id)] + Events.DeliveryTrace(ModelsTopic, w'.broker[|w.broker|])
  {
    AssignAllProjectFields(p, data);
    var q := AssignAllProject(p, data);
    var w1 := UpdateProjectSpec(w, p, data).0;
    assert w1.trace == w.trace + [Saved(Projects, p.id)] && w1.broker == w.broker && w1.faults == w.faults;
    DumpsUuid(p.id);
    ProjectPayloadEncodes(q, true);
    Events.TypedEventDelivered(w1, Events.Label(Events.Update, "project"), "Project", ModelsTopic, "MODEL",
                               ProjectPartialRepresentation(q), PStr(Canonical(q.id)), Events.DefaultReceiver);
  }

  /** As written, a partial update saves the row and then raises `TypeError` at the event call,
      with nothing sent. */
  lemma PartialUpdateProjectAsWrittenSavesThenRaises(w: World, p: ProjectRow, data: seq<ProjectField>)
    ensures var (w1, saved) := UpdateProjectSpec(w, p, data);
      PartialUpdateProjectSpec(w, Events.AsWritten, p, data) == (w1, Err(if saved.Err? then saved.error else Events.EventTypeRejected))
  {
    Events.ProjectSaveCallBinding();
  }

  // ---------------------------------------------------------------- membership create

  /** The validated data of a membership create; the role may be missing. */
  datatype MemberData = MemberData(user: Uuid, position: Uuid, role: Option<string>)

  function DuplicateMember(user: Uuid): Exc {
    DrfValidationError(FieldError("user", "User with id " + Canonical(user) + " already exists with the same position"))
  }

  function CreateMemberSpec(w: World, sig: Events.Signature, project: Uuid, data: MemberData, newId: Uuid)
    : (World, Result<MemberRow, Exc>)
  {
    var role := if data.role.Some? then data.role.value else "Reader";
    if MemberExists(w.db, project, data.user, data.position) then (w, Err(DuplicateMember(data.user)))
    else
      var row := MemberRow(newId, project, data.user, data.position, Some(role));
      var (w1, inserted) := Write(w, InsertMember(row));
      if inserted.Err? then (w1, Err(inserted.error))
      else
        var (w2, sent) := Events.SendEventCallSpec(w1, sig, Events.ProjectSaveCall, Events.Label(Events.AddOnProject, ""),
                                                   "ProjectUser", EventsTopic, "EVENT", MemberRepresentation(row),
                                                   PStr(Canonical(row.id)));
        (w2, if sent.Ok? then Ok(row) else Err(sent.error))
  }

  /** `ProjectUserSerializer.create`; `project` is the serializer context's project. */
  method CreateMember(env: Env, sig: Events.Signature, project: Uuid, data: MemberData, newId: Uuid)
    returns (r: Result<MemberRow, Exc>)
    modifies env
    ensures (env.State(), r) == CreateMemberSpec(old(env.State()), sig, project, data, newId)
  {
    var role := if data.role.Some? then data.role.value else "Reader";
    if MemberExists(env.db, project, data.user, data.position) {
      return Err(DuplicateMember(data.user));
    }
    var row := MemberRow(newId, project, data.user, data.position, Some(role));
    var inserted := env.Execute(InsertMember(row));
    if inserted.Err? {
      return Err(inserted.error);
    }
    var sent := Events.SendEventCall(env, sig, Events.ProjectSaveCall, Events.Label(Events.AddOnProject, ""), "ProjectUser",
                                     EventsTopic, "EVENT", MemberRepresentation(row), PStr(Canonical(row.id)));
    r := if sent.Ok? then Ok(row) else Err(sent.error);
  }

  /** A duplicate `(project, user, position)` is refused before any write; otherwise, intended,
      one row with the given role, or "Reader", is appended and an `add_on_project` event for it
      goes to the events topic. */
  lemma CreateMemberOutcome(w: World, project: Uuid, data: MemberData, newId: Uuid)
    requires w.faults.producer == Accepts && newId !in MemberIds(w.db.members)
    ensures var (w', r) := CreateMemberSpec(w, Events.Intended, project, data, newId);
      && (MemberExists(w.db, project, data.user, data.position) ==> w' == w && r == Err(DuplicateMember(data.user)))
      && (!MemberExists(w.db, project, data.user, data.position) ==>
            && r == Ok(MemberRow(newId, project, data.user, data.position, Some(if data.role.Some? then data.role.value else "Reader")))
            && w'.db == w.db.(members := w.db.members + [r.value])
            && Events.Delivered(w, w', EventsTopic, "EVENT", Events.Label(Events.AddOnProject, ""), "ProjectUser", JString(Canonical(newId)))
            && w'.trace == w.trace + [Inserted(Members, newId)] + Events.DeliveryTrace(EventsTopic, w'.broker[|w.broker|]))
  {
    if !MemberExists(w.db, project, data.user, data.position) {
      var row := MemberRow(newId, project, data.user, data.position, Some(if data.role.Some? then data.role.value else "Reader"));
      var w1 := w.(db := w.db.(members := w.db.members + [row]), trace := w.trace + [Inserted(Members, newId)]);
      assert Write(w, InsertMember(row)) == (w1, Ok(()));
      DumpsUuid(newId);
      Events.TypedEventDelivered(w1, Events.Label(Events.AddOnProject, ""), "ProjectUser", EventsTopic, "EVENT",
                                 MemberRepresentation(row), PStr(Canonical(newId)), Events.DefaultReceiver);
    }
  }

  /** As written, a membership create that is not a duplicate inserts the row and then raises
      `TypeError` at the event call, with nothing sent. */
  lemma CreateMemberAsWrittenInsertsThenRaises(w: World, project: Uuid, data: MemberData, newId: Uuid)
    requires !MemberExists(w.db, project, data.user, data.position)
    ensures var row := MemberRow(newId, project, data.user, data.position, Some(if data.role.Some? then data.role.value else "Reader"));
      var (w1, inserted) := Write(w, InsertMember(row));
      CreateMemberSpec(w, Events.AsWritten, project, data, newId)
        == (w1, Err(if inserted.Err? then inserted.error else Events.EventTypeRejected))
  {
    Events.ProjectSaveCallBinding();
  }

  // ---------------------------------------------------------------- role update

  function UpdateRoleSpec(w: World, sig: Events.Signature, instance: MemberRow, role: Option<string>)
    : (World, Result<MemberRow, Exc>)
  {
    var row := instance.(role := role);
    var (w1, saved) := Write(w, SaveMember(row));
    if saved.Err? then (w1, Err(saved.error))
    else
      var (w2, sent) := Events.SendEventCallSpec(w1, sig, Events.DeleteCall, Events.Label(Events.ChangeRoleOnProject, ""),
                                                 "ProjectUser", EventsTopic, "EVENT", entityId := PStr(Canonical(row.id)));
      (w2, if sent.Ok? then Ok(row) else Err(sent.error))
  }

  /** `ProjectUserUpdateSerializer.update`: `role` is `validated_data.get("role")`, which may be
      None; the column is NOT NULL, so saving None raises. */
  method UpdateRole(env: Env, sig: Events.Signature, instance: MemberRow, role: Option<string>)
    returns (r: Result<MemberRow, Exc>)
    modifies env
    ensures (env.State(), r) == UpdateRoleSpec(old(env.State()), sig, instance, role)
  {
    var row := instance.(role := role);
    var saved := env.Execute(SaveMember(row));
    if saved.Err? {
      return Err(saved.error);
    }
    var sent := Events.SendEventCall(env, sig, Events.DeleteCall, Events.Label(Events.ChangeRoleOnProject, ""), "ProjectUser",
                                     EventsTopic, "EVENT", entityId := PStr(Canonical(row.id)));
    r := if sent.Ok? then Ok(row) else Err(sent.error);
  }

  /** A missing role makes the save raise, with no event, whatever the signature; intended, a
      given role is saved on that row alone and a `change_role_on_project` event without model
      data follows on the events topic. */
  lemma UpdateRoleOutcome(w: World, sig: Events.Signature, instance: MemberRow, role: Option<string>)
    requires w.faults.producer == Accepts
    ensures role.None? ==> UpdateRoleSpec(w, sig, instance, role) == (w, Err(IntegrityError))
    ensures var (w', r) := UpdateRoleSpec(w, Events.Intended, instance, role);
      role.Some? ==>
        && r == Ok(instance.(role := role))
        && w'.db.members == Upsert(w.db.members, (x: MemberRow) => x.id, instance.(role := role))
        && Events.Delivered(w, w', EventsTopic, "EVENT", Events.Label(Events.ChangeRoleOnProject, ""), "ProjectUser", JString(Canonical(instance.id)))
        && Events.MemberValue(w'.broker[|w.broker|].value.members, "model_data") == Some(JNull)
        && w'.trace == w.trace + [Saved(Members, instance.id)] + Events.DeliveryTrace(EventsTopic, w'.broker[|w.broker|])
  {
    if role.None? {
      UpdateRoleWithoutRole(w, sig, instance);
    } else {
      var row := instance.(role := role);
      var w1 := Write(w, SaveMember(row)).0;
      DumpsUuid(instance.id);
      Events.TypedEventDelivered(w1, Events.Label(Events.ChangeRoleOnProject, ""), "ProjectUser", EventsTopic, "EVENT",
                                 PNone, PStr(Canonical(instance.id)), Events.DefaultReceiver);
    }
  }

  /** Without a role the save raises `IntegrityError` and nothing else happens, whatever the
      signature and the producer. */
  lemma UpdateRoleWithoutRole(w: World, sig: Events.Signature, instance: MemberRow)
    ensures UpdateRoleSpec(w, sig, instance, None) == (w, Err(IntegrityError))
  {
    assert Write(w, SaveMember(instance.(role := None))) == (w, Err(IntegrityError));
  }

  /** As written, a role update saves the role and then raises `TypeError` at the event call,
      with nothing sent. */
  lemma UpdateRoleAsWrittenSavesThenRaises(w: World, instance: MemberRow, role: Option<string>)
    ensures var (w1, saved) := Write(w, SaveMember(instance.(role := role)));
      UpdateRoleSpec(w, Events.AsWritten, instance, role) == (w1, Err(if saved.Err? then saved.error else Events.EventTypeRejected))
  {
    Events.DeleteCallBinding();
  }

  // ---------------------------------------------------------------- avatar update

  const LogoSlugs: string := "logo_slugs"

  /** `ProjectAvatarUpdateSerializer.update`: the file mixin on the `logo_slugs` attribute with
      the required `avatars` list. */
  method UpdateAvatars(instance: FileMixin.Instance, service: FileMixin.FileService, avatars: seq<FileMixin.File>)
    returns (r: Result<(), Exc>)
    modifies instance, service
    ensures var u := FileMixin.UpdateSpec(FileMixin.Many(avatars), old(instance.attrs), LogoSlugs, service.upload, service.deletes);
      && service.calls == old(service.calls) + u.calls
      && instance.attrs == u.attrs
      && instance.saves == old(instance.saves) + (if u.saved then 1 else 0)
      && r == u.result
  {
    r := FileMixin.UpdateFileField(instance, service, LogoSlugs, FileMixin.Many(avatars));
  }
}
