/**
 * The project view sets (projects/api/v1/views.py): serializer selection per action, the
 * membership lookup of `ProjectUserViewSet.get_object`, the event calls `retrieve`, `list` and
 * both `perform_destroy` methods make, and the three membership actions, which turn two
 * exception classes into a 400 response and let every other one through. As in the
 * serializers, every event call passes `event_type`, and each operation takes the signature
 * `send_event` binds against.
 */
module ProjectViews {
  import opened Wrappers
  import opened Uuids
  import opened JsonEncoder
  import opened Backend
  import opened KafkaProducers
  import opened ProjectSerializers
  import Events
  import ProjectService

  // ---------------------------------------------------------------- serializer selection

  datatype Action =
    | CreateAction | RetrieveAction | UpdateAction | PartialUpdateAction | DestroyAction | ListAction
    | AddUserAction | UpdateUserRoleAction | DeleteUserAction

  datatype SerializerClass =
    | ProjectCreateUpdateSerializer | ProjectPartialUpdateSerializer
    | ProjectUserSerializer | ProjectUserUpdateSerializer

  /** `ProjectViewSet.get_serializer_class`. */
  function ProjectSerializerClass(action: Action): (c: SerializerClass)
    ensures c == ProjectPartialUpdateSerializer <==> action == UpdateAction || action == PartialUpdateAction
    ensures c == ProjectCreateUpdateSerializer <==> !(action == UpdateAction || action == PartialUpdateAction)
  {
    if action == UpdateAction || action == PartialUpdateAction then ProjectPartialUpdateSerializer
    else ProjectCreateUpdateSerializer
  }

  /** `ProjectUserViewSet.get_serializer_class`. */
  function MemberSerializerClass(action: Action): (c: SerializerClass)
    ensures c == ProjectUserUpdateSerializer <==>
      action == UpdateAction || action == PartialUpdateAction || action == UpdateUserRoleAction
    ensures c == ProjectUserSerializer <==>
      !(action == UpdateAction || action == PartialUpdateAction || action == UpdateUserRoleAction)
  {
    if action == UpdateAction || action == PartialUpdateAction || action == UpdateUserRoleAction then ProjectUserUpdateSerializer
    else ProjectUserSerializer
  }

  // ---------------------------------------------------------------- membership lookup

  /** The three places the user id may come from, in the order they are tried. */
  datatype UserIdSources = UserIdSources(kwarg: Option<Uuid>, dataUser: Option<Uuid>, dataUserId: Option<Uuid>)

  /** `kwargs.get("user_id") or data.get("user") or data.get("user_id")`. */
  function ResolveUserId(s: UserIdSources): (id: Option<Uuid>)
    ensures s.kwarg.Some? ==> id == s.kwarg
    ensures s.kwarg.None? && s.dataUser.Some? ==> id == s.dataUser
    ensures s.kwarg.None? && s.dataUser.None? ==> id == s.dataUserId
  {
    if s.kwarg.Some? then s.kwarg else if s.dataUser.Some? then s.dataUser else s.dataUserId
  }

  const UserIdRequired: Exc := DrfValidationError(FieldError("user", "User ID is required."))
  const MemberNotFound: Exc := ObjectDoesNotExist("ProjectUser not found")

  /** `ProjectUserViewSet.get_object`. A missing `project_pk` filters on NULL and finds nothing;
      several rows (one user holding several positions) raise `MultipleObjectsReturned`, which
      is not caught. */
  function GetObject(db: Db, projectPk: Option<Uuid>, s: UserIdSources): (r: Result<MemberRow, Exc>)
    ensures r == Err(UserIdRequired) <==> ResolveUserId(s).None?
    ensures r.Ok? ==>
      && projectPk.Some? && r.value in db.members
      && r.value.project == projectPk.value && r.value.user == ResolveUserId(s).value
    ensures ResolveUserId(s).Some? && projectPk.Some? ==>
      (r == Err(MemberNotFound) <==> Membership(db, projectPk.value, ResolveUserId(s).value).NoRow?)
    ensures r.Err? ==> r.error in {UserIdRequired, MemberNotFound, MultipleObjectsReturned}
  {
    var userId := ResolveUserId(s);
    if userId.None? then Err(UserIdRequired)
    else if projectPk.None? then Err(MemberNotFound)
    else match Membership(db, projectPk.value, userId.value)
      case NoRow => Err(MemberNotFound)
      case OneRow(m) => Ok(m)
      case SeveralRows => Err(MultipleObjectsReturned)
  }

  /** The first source that holds an id wins, whatever the later ones hold. */
  lemma KwargTakesPrecedence(db: Db, projectPk: Option<Uuid>, s: UserIdSources, other: UserIdSources)
    requires s.kwarg.Some? && other.kwarg == s.kwarg
    ensures GetObject(db, projectPk, s) == GetObject(db, projectPk, other)
  {
  }

  // ---------------------------------------------------------------- the 400 mapping

  datatype Response<T> = Success(body: T) | BadRequest(error: Exc) | Raised(e: Exc)

  /** `except (ObjectDoesNotExist, ValidationError)`: the DRF `ValidationError`, not Django's. */
  predicate Caught(e: Exc) {
    e.ObjectDoesNotExist? || e.DrfValidationError?
  }

  function AsResponse<T>(r: Result<T, Exc>): (resp: Response<T>)
    ensures r.Ok? <==> resp.Success?
    ensures resp.BadRequest? <==> r.Err? && Caught(r.error)
    ensures resp.Raised? <==> r.Err? && !Caught(r.error)
    ensures resp.Success? ==> resp.body == r.value
    ensures !resp.Success? ==> (if resp.BadRequest? then resp.error else resp.e) == r.error
  {
    match r
    case Ok(v) => Success(v)
    case Err(e) => if Caught(e) then BadRequest(e) else Raised(e)
  }

  // ---------------------------------------------------------------- project view set

  const ProjectNotFound: Exc := NotFound("No Project matches the given query.")

  /** `get_object_or_404(Project, id=...)` and the view set's own `get_object` by `id`. */
  function GetProject(db: Db, id: Uuid): (r: Result<ProjectRow, Exc>)
    ensures r == Err(ProjectNotFound) <==> !Exists(db.projects, (p: ProjectRow) => p.id == id)
    ensures r.Ok? ==> r.value in db.projects && r.value.id == id
  {
    match Get(db.projects, (p: ProjectRow) => p.id == id)
    case NoRow => Err(ProjectNotFound)
    case OneRow(p) => Ok(p)
    case SeveralRows => Err(MultipleObjectsReturned)
  }

  function RetrieveSpec(w: World, sig: Events.Signature, id: Uuid): (World, Result<PyValue, Exc>) {
    match GetProject(w.db, id)
    case Err(e) => (w, Err(e))
    case Ok(p) =>
      var data := ProjectRepresentation(p);
      var (w1, sent) := Events.SendEventCallSpec(w, sig, Events.RetrieveCall, Events.Label(Events.Get, "project"), "Project",
                                                 EventsTopic, "MODEL", data, PStr(Canonical(p.id)));
      (w1, if sent.Ok? then Ok(data) else Err(sent.error))
  }

  /** `ProjectViewSet.retrieve`: the response data, then a `get_project` event carrying it. */
  method Retrieve(env: Env, sig: Events.Signature, id: Uuid) returns (r: Result<PyValue, Exc>)
    modifies env
    ensures (env.State(), r) == RetrieveSpec(old(env.State()), sig, id)
  {
    var found := GetProject(env.db, id);
    if found.Err? {
      return Err(found.error);
    }
    var data := ProjectRepresentation(found.value);
    var sent := Events.SendEventCall(env, sig, Events.RetrieveCall, Events.Label(Events.Get, "project"), "Project",
                                     EventsTopic, "MODEL", data, PStr(Canonical(found.value.id)));
    r := if sent.Ok? then Ok(data) else Err(sent.error);
  }

  /** Intended, a retrieve of an existing project sends one event on the events topic naming
      its id, whose payload is exactly the response data. */
  lemma RetrieveEmitsWithEntity(w: World, p: ProjectRow)
    requires w.faults.producer == Accepts && GetProject(w.db, p.id) == Ok(p)
    ensures Dumps(ProjectRepresentation(p)).Ok?
    ensures var (w', r) := RetrieveSpec(w, Events.Intended, p.id);
      && r == Ok(ProjectRepresentation(p))
      && Events.Delivered(w, w', EventsTopic, "MODEL", Events.Label(Events.Get, "project"), "Project", JString(Canonical(p.id)))
      && Events.MemberValue(w'.broker[|w.broker|].value.members, "model_data") == Some(Dumps(ProjectRepresentation(p)).value)
      && w'.db == w.db
  {
    DumpsUuid(p.id);
    ProjectPayloadEncodes(p, false);
    Events.TypedEventDelivered(w, Events.Label(Events.Get, "project"), "Project", EventsTopic, "MODEL",
                               ProjectRepresentation(p), PStr(Canonical(p.id)), Events.DefaultReceiver);
  }

  /** As written, a retrieve never answers: the lookup's error, or else `TypeError` from the
      event call, with nothing sent. */
  lemma RetrieveAsWrittenRaises(w: World, id: Uuid)
    ensures var found := GetProject(w.db, id);
      RetrieveSpec(w, Events.AsWritten, id) == (w, Err(if found.Err? then found.error else Events.EventTypeRejected))
  {
    Events.RetrieveCallBinding();
  }

  /** The list response: one representation per project, in table order. */
  function Representations(rows: seq<ProjectRow>): (data: seq<PyValue>)
    ensures |data| == |rows| && forall i :: 0 <= i < |rows| ==> data[i] == ProjectRepresentation(rows[i])
  {
    if rows == [] then [] else [ProjectRepresentation(rows[0])] + Representations(rows[1..])
  }

  function ListSpec(w: World, sig: Events.Signature): (World, Result<seq<PyValue>, Exc>) {
    var data := Representations(w.db.projects);
    var (w1, sent) := Events.SendEventCallSpec(w, sig, Events.ListCall, Events.Label(Events.GetAll, "projects"), "Project",
                                               ModelsTopic, "MODEL");
    (w1, if sent.Ok? then Ok(data) else Err(sent.error))
  }

  /** `ProjectViewSet.list`: every project's representation, then a `get_allprojects` event
      without an entity id or model data. */
  method List(env: Env, sig: Events.Signature) returns (r: Result<seq<PyValue>, Exc>)
    modifies env
    ensures (env.State(), r) == ListSpec(old(env.State()), sig)
  {
    var data := Representations(env.db.projects);
    var sent := Events.SendEventCall(env, sig, Events.ListCall, Events.Label(Events.GetAll, "projects"), "Project",
                                     ModelsTopic, "MODEL");
    r := if sent.Ok? then Ok(data) else Err(sent.error);
  }

  /** Intended, the list event goes to the models topic and names no entity. */
  lemma ListEmitsWithoutEntity(w: World)
    requires w.faults.producer == Accepts
    ensures var (w', r) := ListSpec(w, Events.Intended);
      && r == Ok(Representations(w.db.projects))
      && Events.Delivered(w, w', ModelsTopic, "MODEL", Events.Label(Events.GetAll, "projects"), "Project", JNull)
      && Events.MemberValue(w'.broker[|w.broker|].value.members, "model_data") == Some(JNull)
  {
    Events.TypedEventDelivered(w, Events.Label(Events.GetAll, "projects"), "Project", ModelsTopic, "MODEL",
                               PNone, PNone, Events.DefaultReceiver);
  }

  /** As written, a list never answers: the event call raises `TypeError`. */
  lemma ListAsWrittenRaises(w: World)
    ensures ListSpec(w, Events.AsWritten) == (w, Err(Events.EventTypeRejected))
  {
    Events.ListCallBinding();
  }

  function DestroyProjectSpec(w: World, sig: Events.Signature, instance: ProjectRow): (World, Result<(), Exc>) {
    var (w1, sent) := Events.SendEventCallSpec(w, sig, Events.DeleteCall, Events.Label(Events.Delete, "project"), "Project",
                                               ModelsTopic, "MODEL", entityId := PStr(Canonical(instance.id)));
    if sent.Err? then (w1, Err(sent.error)) else Write(w1, DeleteProject(instance.id))
  }

  /** `ProjectViewSet.perform_destroy`: the delete event, then the (cascading) delete. */
  method DestroyProject(env: Env, sig: Events.Signature, instance: ProjectRow) returns (r: Result<(), Exc>)
    modifies env
    ensures (env.State(), r) == DestroyProjectSpec(old(env.State()), sig, instance)
  {
    var sent := Events.SendEventCall(env, sig, Events.DeleteCall, Events.Label(Events.Delete, "project"), "Project",
                                     ModelsTopic, "MODEL", entityId := PStr(Canonical(instance.id)));
    if sent.Err? {
      return Err(sent.error);
    }
    r := env.Execute(DeleteProject(instance.id));
  }

  /** The event precedes the delete, and the delete takes the project's memberships and tasks
      with it; if the event call raises, whatever the signature, nothing is deleted. */
  lemma DestroyProjectEmitsThenDeletes(w: World, sig: Events.Signature, instance: ProjectRow)
    ensures var (w', r) := DestroyProjectSpec(w, sig, instance);
      && (r.Err? ==> w'.db == w.db)
      && (sig == Events.Intended && w.faults.producer == Accepts ==>
            && r.Ok?
            && Events.Delivered(w, w', ModelsTopic, "MODEL", Events.Label(Events.Delete, "project"), "Project",
                                JString(Canonical(instance.id)))
            && w'.trace == w.trace + Events.DeliveryTrace(ModelsTopic, w'.broker[|w.broker|]) + [Deleted(Projects, {instance.id})]
            && (forall p :: p in w'.db.projects ==> p.id != instance.id)
            && (forall m :: m in w'.db.members ==> m.project != instance.id)
            && (forall t :: t in w'.db.tasks ==> t.project != instance.id))
  {
    Events.EventCallFrames(w, sig, Events.DeleteCall, Events.Label(Events.Delete, "project"), "Project", ModelsTopic, "MODEL",
                           PNone, PStr(Canonical(instance.id)));
    if sig == Events.Intended && w.faults.producer == Accepts {
      DumpsUuid(instance.id);
      Events.TypedEventDelivered(w, Events.Label(Events.Delete, "project"), "Project", ModelsTopic, "MODEL",
                                 PNone, PStr(Canonical(instance.id)), Events.DefaultReceiver);
    }
  }

  /** As written, destroying a project raises `TypeError` at the event call and deletes nothing. */
  lemma DestroyProjectAsWrittenDeletesNothing(w: World, instance: ProjectRow)
    ensures DestroyProjectSpec(w, Events.AsWritten, instance) == (w, Err(Events.EventTypeRejected))
  {
    Events.DeleteCallBinding();
  }

  // ---------------------------------------------------------------- membership view set

  function DestroyMemberSpec(w: World, sig: Events.Signature, instance: MemberRow): (World, Result<(), Exc>) {
    var (w1, sent) := Events.SendEventCallSpec(w, sig, Events.DeleteCall, Events.Label(Events.DeleteFromProject, ""),
                                               "ProjectUser", EventsTopic, "EVENT", entityId := PStr(Canonical(instance.id)));
    if sent.Err? then (w1, Err(sent.error)) else Write(w1, DeleteMember(instance.id))
  }

  /** `ProjectUserViewSet.perform_destroy`: the event, then the delete of that one row. */
  method DestroyMember(env: Env, sig: Events.Signature, instance: MemberRow) returns (r: Result<(), Exc>)
    modifies env
    ensures (env.State(), r) == DestroyMemberSpec(old(env.State()), sig, instance)
  {
    var sent := Events.SendEventCall(env, sig, Events.DeleteCall, Events.Label(Events.DeleteFromProject, ""), "ProjectUser",
                                     EventsTopic, "EVENT", entityId := PStr(Canonical(instance.id)));
    if sent.Err? {
      return Err(sent.error);
    }
    r := env.Execute(DeleteMember(instance.id));
  }

  /** The same for a membership: the event, then the delete of that one row; nothing is
      deleted when the event call raises. */
  lemma DestroyMemberEmitsThenDeletes(w: World, sig: Events.Signature, instance: MemberRow)
    ensures var (w', r) := DestroyMemberSpec(w, sig, instance);
      && (r.Err? ==> w'.db == w.db)
      && (sig == Events.Intended && w.faults.producer == Accepts ==>
            && r.Ok?
            && Events.Delivered(w, w', EventsTopic, "EVENT", Events.Label(Events.DeleteFromProject, ""), "ProjectUser",
                                JString(Canonical(instance.id)))
            && w'.trace == w.trace + Events.DeliveryTrace(EventsTopic, w'.broker[|w.broker|]) + [Deleted(Members, {instance.id})]
            && (forall m :: m in w'.db.members <==> m in w.db.members && m.id != instance.id))
  {
    Events.EventCallFrames(w, sig, Events.DeleteCall, Events.Label(Events.DeleteFromProject, ""), "ProjectUser", EventsTopic,
                           "EVENT", PNone, PStr(Canonical(instance.id)));
    if sig == Events.Intended && w.faults.producer == Accepts {
      DumpsUuid(instance.id);
      Events.TypedEventDelivered(w, Events.Label(Events.DeleteFromProject, ""), "ProjectUser", EventsTopic, "EVENT",
                                 PNone, PStr(Canonical(instance.id)), Events.DefaultReceiver);
      var w1 := Events.SendEventCallSpec(w, sig, Events.DeleteCall, Events.Label(Events.DeleteFromProject, ""),
                                         "ProjectUser", EventsTopic, "EVENT", entityId := PStr(Canonical(instance.id))).0;
      DeleteMemberWrites(w1, instance.id);
    }
  }

  /** As written, destroying a membership raises `TypeError` at the event call and deletes nothing. */
  lemma DestroyMemberAsWrittenDeletesNothing(w: World, instance: MemberRow)
    ensures DestroyMemberSpec(w, Events.AsWritten, instance) == (w, Err(Events.EventTypeRejected))
  {
    Events.DeleteCallBinding();
  }

  function AddUserSpec(w: World, sig: Events.Signature, projectPk: Uuid, data: MemberData, newId: Uuid)
    : (World, Response<MemberRow>)
  {
    match GetProject(w.db, projectPk)
    case Err(e) => (w, AsResponse(Err(e)))
    case Ok(p) =>
      var (w1, r) := CreateMemberSpec(w, sig, p.id, data, newId);
      (w1, AsResponse(r))
  }

  /** `ProjectUserViewSet.add_user`: the context's project, then the membership create. */
  method AddUser(env: Env, sig: Events.Signature, projectPk: Uuid, data: MemberData, newId: Uuid)
    returns (resp: Response<MemberRow>)
    modifies env
    ensures (env.State(), resp) == AddUserSpec(old(env.State()), sig, projectPk, data, newId)
  {
    var project := GetProject(env.db, projectPk);
    if project.Err? {
      return AsResponse(Err(project.error));
    }
    var r := CreateMember(env, sig, project.value.id, data, newId);
    resp := AsResponse(r);
  }

  function UpdateUserRoleSpec(w: World, sig: Events.Signature, projectPk: Uuid, s: UserIdSources, role: Option<string>)
    : (World, Response<MemberRow>)
  {
    match GetObject(w.db, Some(projectPk), s)
    case Err(e) => (w, AsResponse(Err(e)))
    case Ok(m) =>
      match GetProject(w.db, projectPk)
      case Err(e) => (w, AsResponse(Err(e)))
      case Ok(_) =>
        var (w1, r) := UpdateRoleSpec(w, sig, m, role);
        (w1, AsResponse(r))
  }

  /** `ProjectUserViewSet.update_user_role`: `partial_update` looks the membership up, builds the
      serializer (whose context looks the project up), then saves the role. */
  method UpdateUserRole(env: Env, sig: Events.Signature, projectPk: Uuid, s: UserIdSources, role: Option<string>)
    returns (resp: Response<MemberRow>)
    modifies env
    ensures (env.State(), resp) == UpdateUserRoleSpec(old(env.State()), sig, projectPk, s, role)
  {
    var member := GetObject(env.db, Some(projectPk), s);
    if member.Err? {
      return AsResponse(Err(member.error));
    }
    var project := GetProject(env.db, projectPk);
    if project.Err? {
      return AsResponse(Err(project.error));
    }
    var r := UpdateRole(env, sig, member.value, role);
    resp := AsResponse(r);
  }

  function DeleteUserSpec(w: World, sig: Events.Signature, projectPk: Uuid, s: UserIdSources): (World, Response<()>) {
    match GetObject(w.db, Some(projectPk), s)
    case Err(e) => (w, AsResponse(Err(e)))
    case Ok(m) =>
      var (w1, r) := DestroyMemberSpec(w, sig, m);
      (w1, AsResponse(r))
  }

  /** `ProjectUserViewSet.delete_user`: `destroy` looks the membership up, then destroys it. */
  method DeleteUser(env: Env, sig: Events.Signature, projectPk: Uuid, s: UserIdSources) returns (resp: Response<()>)
    modifies env
    ensures (env.State(), resp) == DeleteUserSpec(old(env.State()), sig, projectPk, s)
  {
    var member := GetObject(env.db, Some(projectPk), s);
    if member.Err? {
      return AsResponse(Err(member.error));
    }
    var r := DestroyMember(env, sig, member.value);
    resp := AsResponse(r);
  }

  /** The membership actions answer 400 for a missing user id and for a missing membership,
      change nothing then, and let `MultipleObjectsReturned` escape. */
  lemma MemberActionsLookupFailures(w: World, sig: Events.Signature, projectPk: Uuid, s: UserIdSources, role: Option<string>)
    ensures ResolveUserId(s).None? ==>
      && DeleteUserSpec(w, sig, projectPk, s) == (w, BadRequest(UserIdRequired))
      && UpdateUserRoleSpec(w, sig, projectPk, s, role) == (w, BadRequest(UserIdRequired))
    ensures ResolveUserId(s).Some? && Membership(w.db, projectPk, ResolveUserId(s).value).NoRow? ==>
      && DeleteUserSpec(w, sig, projectPk, s) == (w, BadRequest(MemberNotFound))
      && UpdateUserRoleSpec(w, sig, projectPk, s, role) == (w, BadRequest(MemberNotFound))
    ensures ResolveUserId(s).Some? && Membership(w.db, projectPk, ResolveUserId(s).value).SeveralRows? ==>
      && DeleteUserSpec(w, sig, projectPk, s) == (w, Raised(MultipleObjectsReturned))
      && UpdateUserRoleSpec(w, sig, projectPk, s, role) == (w, Raised(MultipleObjectsReturned))
  {
  }

  /** The role column's NOT NULL constraint surfaces as an uncaught `IntegrityError` when the
      request names no role, and nothing is written. */
  lemma UpdateUserRoleWithoutRoleRaises(w: World, sig: Events.Signature, projectPk: Uuid, s: UserIdSources)
    requires GetObject(w.db, Some(projectPk), s).Ok? && GetProject(w.db, projectPk).Ok?
    ensures UpdateUserRoleSpec(w, sig, projectPk, s, None) == (w, Raised(IntegrityError))
  {
    UpdateRoleWithoutRole(w, sig, GetObject(w.db, Some(projectPk), s).value);
  }

  /** A duplicate `(project, user, position)` is the serializer's DRF `ValidationError`, which
      `add_user` answers with a 400 before anything is written. */
  lemma DuplicateMemberIsBadRequest(w: World, sig: Events.Signature, projectPk: Uuid, data: MemberData, newId: Uuid)
    requires GetProject(w.db, projectPk).Ok?
    requires ProjectService.MemberExists(w.db, projectPk, data.user, data.position)
    ensures AddUserSpec(w, sig, projectPk, data, newId) == (w, BadRequest(DuplicateMember(data.user)))
  {
  }

  /** As written, the `TypeError` of every membership action's event call is not among the
      caught classes: `add_user` and `update_user_role` answer with it after their write, and
      `delete_user` answers with it having deleted nothing. */
  lemma MemberActionsAsWrittenRaise(w: World, projectPk: Uuid, s: UserIdSources, role: Option<string>, data: MemberData,
                                    newId: Uuid)
    requires GetProject(w.db, projectPk).Ok?
    ensures !ProjectService.MemberExists(w.db, projectPk, data.user, data.position) ==>
      var row := MemberRow(newId, projectPk, data.user, data.position, Some(if data.role.Some? then data.role.value else "Reader"));
      var (w1, inserted) := Write(w, InsertMember(row));
      AddUserSpec(w, Events.AsWritten, projectPk, data, newId)
        == (w1, if inserted.Err? then AsResponse(Err(inserted.error)) else Raised(Events.EventTypeRejected))
    ensures GetObject(w.db, Some(projectPk), s).Ok? ==>
      var (w1, saved) := Write(w, SaveMember(GetObject(w.db, Some(projectPk), s).value.(role := role)));
      && UpdateUserRoleSpec(w, Events.AsWritten, projectPk, s, role)
         == (w1, if saved.Err? then AsResponse(Err(saved.error)) else Raised(Events.EventTypeRejected))
      && DeleteUserSpec(w, Events.AsWritten, projectPk, s) == (w, Raised(Events.EventTypeRejected))
  {
    if !ProjectService.MemberExists(w.db, projectPk, data.user, data.position) {
      CreateMemberAsWrittenInsertsThenRaises(w, projectPk, data, newId);
    }
    if GetObject(w.db, Some(projectPk), s).Ok? {
      var m := GetObject(w.db, Some(projectPk), s).value;
      UpdateRoleAsWrittenSavesThenRaises(w, m, role);
      DestroyMemberAsWrittenDeletesNothing(w, m);
    }
  }
}
