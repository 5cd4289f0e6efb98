/**
 * Task access decisions (task/api/permissions.py). The membership relation is the
 * `project_user` table; the request carries the role the authentication service reported, the
 * local user id the middleware set (`request.user_id`), and the id of the framework's own user
 * object (`request.user.id`), which is a different attribute.
 */
module TaskPermissions {
  import opened Wrappers
  import opened Uuids
  import opened Backend
  import opened CommonPermissions

  datatype Request = Request(role: Option<string>, userId: Uuid, frameworkUserId: Option<Uuid>)

  /** `TaskRolePermission.has_permission` for the view action, with `request.data.get("project")`. */
  function HasPermission(db: Db, req: Request, action: string, project: Option<Uuid>, allowed: seq<string>): Verdict {
    if IsAdmin(req.role) then Granted
    else if action == "list" then Granted
    else if action == "create" then
      if project.None? then Denied
      else RoleVerdict(Membership(db, project.value, req.userId), allowed)
    else Granted
  }

  /** `TaskRolePermission.has_object_permission` on a task row. */
  function HasObjectPermission(db: Db, req: Request, obj: TaskRow, allowed: seq<string>): Verdict {
    if IsAdmin(req.role) then Granted
    else RoleVerdict(Membership(db, obj.project, req.userId), allowed)
  }

  /** The class-level role list, which `IsAssignee` inherits. */
  const NoRoles: seq<string> := []

  /** `IsAssignee.has_object_permission`: the base check with no roles, then the assignee test. */
  function IsAssigneeObjectPermission(db: Db, req: Request, obj: TaskRow): Verdict {
    var base := HasObjectPermission(db, req, obj, NoRoles);
    if base == Granted then Granted
    else if base.Raised? then base
    else if req.frameworkUserId == Some(obj.assignee) then Granted
    else Denied
  }

  /** `HasTaskRole(allowed_roles)`: the same checks over exactly the roles given. */
  function HasTaskRoleObjectPermission(db: Db, req: Request, obj: TaskRow, allowed: seq<string>): Verdict {
    HasObjectPermission(db, req, obj, allowed)
  }

  /** An admin passes both checks whatever the action, the data and the tables. */
  lemma AdminAlwaysGranted(db: Db, req: Request, action: string, project: Option<Uuid>, obj: TaskRow, allowed: seq<string>)
    requires IsAdmin(req.role)
    ensures HasPermission(db, req, action, project, allowed) == Granted
    ensures HasObjectPermission(db, req, obj, allowed) == Granted
    ensures IsAssigneeObjectPermission(db, req, obj) == Granted
  {
  }

  /** Listing is always allowed, and so is every action other than list and create. */
  lemma OnlyCreateIsChecked(db: Db, req: Request, action: string, project: Option<Uuid>, allowed: seq<string>)
    requires action != "create"
    ensures HasPermission(db, req, action, project, allowed) == Granted
  {
  }

  /** For a non-admin, create is decided by the membership in the named project: no project and
      no membership deny, and it is granted exactly when the one membership row has an allowed role. */
  lemma CreateDecidedByMembership(db: Db, req: Request, project: Option<Uuid>, allowed: seq<string>)
    requires !IsAdmin(req.role)
    ensures project.None? ==> HasPermission(db, req, "create", project, allowed) == Denied
    ensures project.Some? && Membership(db, project.value, req.userId).NoRow? ==>
      HasPermission(db, req, "create", project, allowed) == Denied
    ensures HasPermission(db, req, "create", project, allowed) == Granted <==>
      project.Some? && var m := Membership(db, project.value, req.userId);
      m.OneRow? && m.row.role.Some? && m.row.role.value in allowed
  {
  }

  /** A non-admin reaches a task exactly when their one membership in its project has an allowed role. */
  lemma ObjectDecidedByMembership(db: Db, req: Request, obj: TaskRow, allowed: seq<string>)
    requires !IsAdmin(req.role)
    ensures HasObjectPermission(db, req, obj, allowed) == Granted <==>
      var m := Membership(db, obj.project, req.userId);
      m.OneRow? && m.row.role.Some? && m.row.role.value in allowed
  {
  }

  /** With no roles allowed, `IsAssignee` grants exactly an admin or the framework user to whom
      the task is assigned, unless the membership lookup raised first. */
  lemma AssigneeIff(db: Db, req: Request, obj: TaskRow)
    ensures IsAssigneeObjectPermission(db, req, obj) == Granted <==>
      IsAdmin(req.role) ||
      (!Membership(db, obj.project, req.userId).SeveralRows? && req.frameworkUserId == Some(obj.assignee))
  {
  }

  /** The local user id set by the middleware plays no part in `IsAssignee`'s own test: a member
      with any role who is not the framework user is still denied. */
  lemma AssigneeIgnoresLocalUserId(db: Db, req: Request, obj: TaskRow)
    requires !IsAdmin(req.role) && req.userId == obj.assignee && req.frameworkUserId != Some(obj.assignee)
    requires !Membership(db, obj.project, req.userId).SeveralRows?
    ensures IsAssigneeObjectPermission(db, req, obj) == Denied
  {
  }

  /** A wider role list for `HasTaskRole` never denies what a narrower one granted. */
  lemma HasTaskRoleMonotone(db: Db, req: Request, obj: TaskRow, allowed: seq<string>, more: seq<string>)
    requires forall r :: r in allowed ==> r in more
    ensures HasTaskRoleObjectPermission(db, req, obj, allowed) == Granted ==>
      HasTaskRoleObjectPermission(db, req, obj, more) == Granted
  {
    RoleVerdictMonotone(Membership(db, obj.project, req.userId), allowed, more);
  }
}
