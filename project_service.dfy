/**
 * Membership and project table operations (projects/api/service.py): ordered validation
 * checks, then one insert, save or delete. Every check that fails raises before any write, so
 * an error leaves the tables as they were.
 */
module ProjectService {
  import opened Wrappers
  import opened Uuids
  import opened Backend

  /** The first components of `ProjectUser.ROLE_CHOICES`. */
  const ValidRoles: seq<string> := ["Reader", "Developer", "Maintainer", "Owner"]

  const InvalidRole: Exc := DjangoValidationError(FieldError("role", "Invalid role. Allowed roles are: Reader, Developer, Maintainer, Owner"))

  /** The keys of `validated_data` that `add_user_on_project` reads; None is a missing key. */
  datatype AddData = AddData(userId: Option<Uuid>, role: Option<string>, position: Option<Uuid>)

  /** `UserService`-free lookups the checks make. */
  predicate UserExists(db: Db, id: Uuid) {
    Exists(db.users, (u: UserRow) => u.id == id)
  }

  predicate MemberExists(db: Db, project: Uuid, user: Uuid, position: Uuid) {
    Exists(db.members, (m: MemberRow) => m.project == project && m.user == user && m.position == position)
  }

  predicate InProject(db: Db, project: Uuid, user: Uuid) {
    Exists(db.members, (m: MemberRow) => m.project == project && m.user == user)
  }

  /** The checks of `add_user_on_project`, in source order, ending in the row to insert. */
  function AddUserChecks(db: Db, project: Uuid, data: AddData, newId: Uuid): Result<MemberRow, Exc> {
    if data.userId.None? then Err(DjangoValidationError(FieldError("error", "User ID is missing in validated_data")))
    else
      var role := if data.role.Some? then data.role.value else "Reader";
      if data.position.None? then Err(KeyError("position"))
      else if data.position.value !in db.positions then
        Err(DjangoValidationError(FieldError("position", "Position with id " + Canonical(data.position.value) + " does not exist.")))
      else if role !in ValidRoles then Err(InvalidRole)
      else if !UserExists(db, data.userId.value) then Err(ObjectDoesNotExist("User not found"))
      else if MemberExists(db, project, data.userId.value, data.position.value) then
        Err(DjangoValidationError(FieldError("user", "User with id " + Canonical(data.userId.value) + " already exists with the same position")))
      else Ok(MemberRow(newId, project, data.userId.value, data.position.value, Some(role)))
  }

  function AddUserSpec(w: World, project: Uuid, data: AddData, newId: Uuid): (World, Result<MemberRow, Exc>) {
    match AddUserChecks(w.db, project, data, newId)
    case Err(e) => (w, Err(e))
    case Ok(row) =>
      var (w1, r) := Write(w, InsertMember(row));
      (w1, if r.Ok? then Ok(row) else Err(r.error))
  }

  /** `ProjectUserService.add_user_on_project`; `newId` is the primary key the new row receives. */
  method AddUserOnProject(env: Env, project: Uuid, data: AddData, newId: Uuid) returns (r: Result<MemberRow, Exc>)
    modifies env
    ensures (env.State(), r) == AddUserSpec(old(env.State()), project, data, newId)
  {
    var checked := AddUserChecks(env.db, project, data, newId);
    if checked.Err? {
      return Err(checked.error);
    }
    var written := env.Execute(InsertMember(checked.value));
    r := if written.Ok? then Ok(checked.value) else Err(written.error);
  }

  /** The checks come in this order: the user id, the position key and row, the role, the user
      row, the duplicate membership; and every failure writes nothing. */
  lemma AddUserErrorOrder(w: World, project: Uuid, data: AddData, newId: Uuid)
    ensures var (w', r) := AddUserSpec(w, project, data, newId);
      && (r.Err? ==> w'.db == w.db && w'.trace == w.trace)
      && (data.userId.None? ==> r.Err? && r.error.DjangoValidationError? && r.error.detail.field == "error")
      && (data.userId.Some? && data.position.None? ==> r == Err(KeyError("position")))
      && (data.userId.Some? && data.position.Some? && data.position.value !in w.db.positions ==>
           r.Err? && r.error.DjangoValidationError? && r.error.detail.field == "position")
      && ((data.userId.Some? && data.position.Some? && data.position.value in w.db.positions
           && data.role.Some? && data.role.value !in ValidRoles) ==> r == Err(InvalidRole))
      && ((data.userId.Some? && data.position.Some? && data.position.value in w.db.positions
           && (data.role.None? || data.role.value in ValidRoles) && !UserExists(w.db, data.userId.value)) ==>
           r == Err(ObjectDoesNotExist("User not found")))
  {
  }

  /** On success exactly one row is appended, with the given project, user and position and the
      given role or "Reader"; nothing else in the tables changes. */
  lemma AddUserInsertsOneRow(w: World, project: Uuid, data: AddData, newId: Uuid)
    ensures var (w', r) := AddUserSpec(w, project, data, newId);
      r.Ok? ==>
        && data.userId.Some? && data.position.Some?
        && r.value == MemberRow(newId, project, data.userId.value, data.position.value,
                                Some(if data.role.Some? then data.role.value else "Reader"))
        && r.value.role.value in ValidRoles
        && UserExists(w.db, data.userId.value) && data.position.value in w.db.positions
        && !MemberExists(w.db, project, data.userId.value, data.position.value)
        && w'.db == w.db.(members := w.db.members + [r.value])
        && w'.trace == w.trace + [Inserted(Members, newId)]
  {
  }

  /** Adding succeeds exactly when every check passes and the new key is unused. */
  lemma AddUserSucceedsIff(w: World, project: Uuid, data: AddData, newId: Uuid)
    ensures AddUserSpec(w, project, data, newId).1.Ok? <==>
      && data.userId.Some? && data.position.Some? && data.position.value in w.db.positions
      && (data.role.None? || data.role.value in ValidRoles)
      && UserExists(w.db, data.userId.value)
      && !MemberExists(w.db, project, data.userId.value, data.position.value)
      && newId !in MemberIds(w.db.members)
  {
  }

  // ---------------------------------------------------------------- role change

  function ChangeRoleSpec(w: World, project: Uuid, user: Uuid, newRole: string := "Developer"): (World, Result<MemberRow, Exc>) {
    if newRole !in ValidRoles then (w, Err(InvalidRole))
    else match Membership(w.db, project, user)
      case NoRow => (w, Err(DjangoValidationError(FieldError("error", "User is not in the project."))))
      case SeveralRows => (w, Err(MultipleObjectsReturned))
      case OneRow(m) =>
        var row := m.(role := Some(newRole));
        var (w1, r) := Write(w, SaveMember(row));
        (w1, if r.Ok? then Ok(row) else Err(r.error))
  }

  /** `ProjectUserService.change_user_role_on_project`. */
  method ChangeUserRoleOnProject(env: Env, project: Uuid, user: Uuid, newRole: string := "Developer")
    returns (r: Result<MemberRow, Exc>)
    modifies env
    ensures (env.State(), r) == ChangeRoleSpec(old(env.State()), project, user, newRole)
  {
    if newRole !in ValidRoles {
      return Err(InvalidRole);
    }
    var found := Membership(env.db, project, user);
    match found
    case NoRow =>
      r := Err(DjangoValidationError(FieldError("error", "User is not in the project.")));
    case SeveralRows =>
      r := Err(MultipleObjectsReturned);
    case OneRow(m) =>
      var row := m.(role := Some(newRole));
      var saved := env.Execute(SaveMember(row));
      r := if saved.Ok? then Ok(row) else Err(saved.error);
  }

  /** The role is validated before the lookup; a non-member gets "User is not in the project.";
      otherwise only the role of the one membership row changes. */
  lemma ChangeRoleTouchesOnlyThatRole(w: World, project: Uuid, user: Uuid, newRole: string)
    ensures var (w', r) := ChangeRoleSpec(w, project, user, newRole);
      && (newRole !in ValidRoles ==> r == Err(InvalidRole) && w' == w)
      && (newRole in ValidRoles && !InProject(w.db, project, user) ==>
           r == Err(DjangoValidationError(FieldError("error", "User is not in the project."))) && w' == w)
      && (r.Ok? ==>
           && newRole in ValidRoles && Membership(w.db, project, user) == OneRow(r.value.(role := Membership(w.db, project, user).row.role))
           && r.value.role == Some(newRole)
           && w'.db == w.db.(members := w'.db.members)
           && |w'.db.members| == |w.db.members|
           && forall i :: 0 <= i < |w.db.members| ==>
                w'.db.members[i] == (if w.db.members[i].id == r.value.id then r.value else w.db.members[i]))
  {
    var found := Membership(w.db, project, user);
    assert !InProject(w.db, project, user) <==> found.NoRow?;
    if newRole in ValidRoles && found.OneRow? {
      var m := found.row;
      var i :| 0 <= i < |w.db.members| && w.db.members[i] == m;
      assert Exists(w.db.members, (x: MemberRow) => x.id == m.id);
    }
  }

  // ---------------------------------------------------------------- removal

  function DeleteUserSpec(w: World, project: Uuid, user: Uuid): (World, Result<(), Exc>) {
    if !InProject(w.db, project, user) then
      (w, Err(DjangoValidationError(FieldError("user", "User with id " + Canonical(user) + " does not exists"))))
    else Write(w, DeleteMembers(project, user))
  }

  /** `ProjectUserService.delete_user_on_project`. */
  method DeleteUserOnProject(env: Env, project: Uuid, user: Uuid) returns (r: Result<(), Exc>)
    modifies env
    ensures (env.State(), r) == DeleteUserSpec(old(env.State()), project, user)
  {
    if !InProject(env.db, project, user) {
      return Err(DjangoValidationError(FieldError("user", "User with id " + Canonical(user) + " does not exists")));
    }
    r := env.Execute(DeleteMembers(project, user));
  }

  /** A non-member is refused with the tables untouched; otherwise every membership of that user
      in that project goes, whatever its position, and every other row stays. */
  lemma DeleteUserRemovesAllPositions(w: World, project: Uuid, user: Uuid)
    ensures var (w', r) := DeleteUserSpec(w, project, user);
      && (!InProject(w.db, project, user) <==> r.Err?)
      && (r.Err? ==> w' == w)
      && (r.Ok? ==>
           && w'.db == w.db.(members := w'.db.members)
           && (forall m :: m in w'.db.members <==> m in w.db.members && !(m.project == project && m.user == user))
           && !InProject(w'.db, project, user))
  {
  }

  // ---------------------------------------------------------------- project update

  /** One `setattr(project, key, value)` with a key of the project model. */
  datatype ProjectField = SetTitle(title: string) | SetDescription(description: string) | SetStatus(status: string) | SetCreatedBy(createdBy: Uuid)

  function AssignProject(p: ProjectRow, f: ProjectField): ProjectRow {
    match f
    case SetTitle(t) => p.(title := t)
    case SetDescription(d) => p.(description := d)
    case SetStatus(s) => p.(status := s)
    case SetCreatedBy(u) => p.(createdBy := u)
  }

  /** The assignments of `data.items()` in order. */
  function AssignAllProject(p: ProjectRow, data: seq<ProjectField>): ProjectRow
  {
    if data == [] then p else AssignProject(AssignAllProject(p, data[..|data| - 1]), data[|data| - 1])
  }

  /** The last title assigned, if any. */
  function LastTitle(data: seq<ProjectField>): Option<string> {
    if data == [] then None
    else if data[|data| - 1].SetTitle? then Some(data[|data| - 1].title)
    else LastTitle(data[..|data| - 1])
  }

  function LastDescription(data: seq<ProjectField>): Option<string> {
    if data == [] then None
    else if data[|data| - 1].SetDescription? then Some(data[|data| - 1].description)
    else LastDescription(data[..|data| - 1])
  }

  function LastStatus(data: seq<ProjectField>): Option<string> {
    if data == [] then None
    else if data[|data| - 1].SetStatus? then Some(data[|data| - 1].status)
    else LastStatus(data[..|data| - 1])
  }

  function LastCreatedBy(data: seq<ProjectField>): Option<Uuid> {
    if data == [] then None
    else if data[|data| - 1].SetCreatedBy? then Some(data[|data| - 1].createdBy)
    else LastCreatedBy(data[..|data| - 1])
  }

  /** Each field ends with the last value given for it, and a field not given keeps its value;
      the key never changes. */
  lemma {:induction false} AssignAllProjectFields(p: ProjectRow, data: seq<ProjectField>)
    ensures var q := AssignAllProject(p, data);
      && q.id == p.id
      && q.title == OrElse(LastTitle(data), p.title)
      && q.description == OrElse(LastDescription(data), p.description)
      && q.status == OrElse(LastStatus(data), p.status)
      && q.createdBy == OrElse(LastCreatedBy(data), p.createdBy)
  {
    if data != [] {
      AssignAllProjectFields(p, data[..|data| - 1]);
    }
  }

  function UpdateProjectSpec(w: World, p: ProjectRow, data: seq<ProjectField>): (World, Result<ProjectRow, Exc>) {
    var q := AssignAllProject(p, data);
    var (w1, r) := Write(w, SaveProject(q));
    (w1, if r.Ok? then Ok(q) else Err(r.error))
  }

  /** `ProjectService.update_project`: assign each given key in turn, then save once. */
  method UpdateProject(env: Env, p: ProjectRow, data: seq<ProjectField>) returns (r: Result<ProjectRow, Exc>)
    modifies env
    ensures (env.State(), r) == UpdateProjectSpec(old(env.State()), p, data)
  {
    var q := p;
    var i := 0;
    while i < |data|
      invariant 0 <= i <= |data|
      invariant q == AssignAllProject(p, data[..i])
    {
      assert data[..i + 1][..i] == data[..i];
      q := AssignProject(q, data[i]);
      i := i + 1;
    }
    assert data[..i] == data;
    var saved := env.Execute(SaveProject(q));
    r := if saved.Ok? then Ok(q) else Err(saved.error);
  }

  /** The update saves exactly once: the project row with that key becomes the assigned row and
      no other row of any table changes. */
  lemma UpdateProjectSavesOnce(w: World, p: ProjectRow, data: seq<ProjectField>)
    requires p.id in ProjectIds(w.db.projects)
    ensures var (w', r) := UpdateProjectSpec(w, p, data);
      && r == Ok(AssignAllProject(p, data))
      && w'.trace == w.trace + [Saved(Projects, p.id)]
      && w'.db == w.db.(projects := w'.db.projects)
      && |w'.db.projects| == |w.db.projects|
      && forall i :: 0 <= i < |w.db.projects| ==>
           w'.db.projects[i] == (if w.db.projects[i].id == p.id then r.value else w.db.projects[i])
  {
    AssignAllProjectFields(p, data);
    var i :| 0 <= i < |w.db.projects| && w.db.projects[i].id == p.id;
    assert Exists(w.db.projects, (x: ProjectRow) => x.id == AssignAllProject(p, data).id);
  }
}
