/**
 * Project access decisions (projects/api/permissions.py): the project comes from the URL
 * keyword `project_pk`, else `id`, and at object level from the object itself.
 */
module ProjectPermissions {
  import opened Wrappers
  import opened Uuids
  import opened Backend
  import opened CommonPermissions

  datatype Request = Request(role: Option<string>, userId: Uuid)

  /** The URL keyword arguments the check reads. */
  datatype Kwargs = Kwargs(projectPk: Option<Uuid>, id: Option<Uuid>)

  /** The object of an object-level check: a project, or a row that may name one. */
  datatype Obj = ProjectObj(project: ProjectRow) | OtherObj(projectId: Option<Uuid>)

  /** `view.kwargs.get("project_pk") or view.kwargs.get("id")`. */
  function ProjectFromKwargs(kw: Kwargs): (p: Option<Uuid>)
    ensures kw.projectPk.Some? ==> p == kw.projectPk
    ensures kw.projectPk.None? ==> p == kw.id
  {
    if kw.projectPk.Some? then kw.projectPk else kw.id
  }

  /** `obj.id` for a project, otherwise `getattr(obj, "project_id", None)`. */
  function ProjectOfObject(obj: Obj): (p: Option<Uuid>)
    ensures obj.ProjectObj? ==> p == Some(obj.project.id)
    ensures obj.OtherObj? ==> p == obj.projectId
  {
    match obj
    case ProjectObj(row) => Some(row.id)
    case OtherObj(id) => id
  }

  function HasPermission(db: Db, req: Request, kw: Kwargs, allowed: seq<string>): Verdict {
    if IsAdmin(req.role) then Granted
    else match ProjectFromKwargs(kw)
      case None => Denied
      case Some(p) => RoleVerdict(Membership(db, p, req.userId), allowed)
  }

  function HasObjectPermission(db: Db, req: Request, obj: Obj, allowed: seq<string>): Verdict {
    if IsAdmin(req.role) then Granted
    else match ProjectOfObject(obj)
      case None => Denied
      case Some(p) => RoleVerdict(Membership(db, p, req.userId), allowed)
  }

  /** `IsProjectOwner`: the role list is exactly `["Owner"]`. */
  const OwnerRoles: seq<string> := ["Owner"]

  function IsProjectOwner(db: Db, req: Request, kw: Kwargs): Verdict {
    HasPermission(db, req, kw, OwnerRoles)
  }

  function IsProjectOwnerObject(db: Db, req: Request, obj: Obj): Verdict {
    HasObjectPermission(db, req, obj, OwnerRoles)
  }

  /** An admin passes both levels. */
  lemma AdminAlwaysGranted(db: Db, req: Request, kw: Kwargs, obj: Obj, allowed: seq<string>)
    requires IsAdmin(req.role)
    ensures HasPermission(db, req, kw, allowed) == Granted
    ensures HasObjectPermission(db, req, obj, allowed) == Granted
  {
  }

  /** Without either URL keyword a non-admin is denied; `id` is consulted only when
      `project_pk` is absent. */
  lemma KwargsFallback(db: Db, req: Request, kw: Kwargs, allowed: seq<string>)
    requires !IsAdmin(req.role)
    ensures kw.projectPk.None? && kw.id.None? ==> HasPermission(db, req, kw, allowed) == Denied
    ensures kw.projectPk.Some? ==> HasPermission(db, req, kw, allowed) == HasPermission(db, req, kw.(id := None), allowed)
    ensures kw.projectPk.None? ==> HasPermission(db, req, kw, allowed) == HasPermission(db, req, Kwargs(kw.id, None), allowed)
  {
  }

  /** Otherwise a non-admin is granted exactly when their one membership in that project has an
      allowed role; a non-member is denied. */
  lemma GrantedIffAllowedRole(db: Db, req: Request, kw: Kwargs, allowed: seq<string>)
    requires !IsAdmin(req.role) && ProjectFromKwargs(kw).Some?
    ensures var m := Membership(db, ProjectFromKwargs(kw).value, req.userId);
      && (HasPermission(db, req, kw, allowed) == Granted <==> m.OneRow? && m.row.role.Some? && m.row.role.value in allowed)
      && (m.NoRow? ==> HasPermission(db, req, kw, allowed) == Denied)
  {
  }

  /** At object level the project is the object's own id for a project and its `project_id`
      otherwise; an object naming no project is denied. */
  lemma ObjectGrantedIffAllowedRole(db: Db, req: Request, obj: Obj, allowed: seq<string>)
    requires !IsAdmin(req.role)
    ensures ProjectOfObject(obj).None? ==> HasObjectPermission(db, req, obj, allowed) == Denied
    ensures HasObjectPermission(db, req, obj, allowed) == Granted <==>
      ProjectOfObject(obj).Some? && var m := Membership(db, ProjectOfObject(obj).value, req.userId);
      m.OneRow? && m.row.role.Some? && m.row.role.value in allowed
  {
  }

  /** `IsProjectOwner` grants a non-admin only an "Owner" membership. */
  lemma OwnerOnly(db: Db, req: Request, kw: Kwargs)
    requires !IsAdmin(req.role)
    ensures IsProjectOwner(db, req, kw) == Granted <==>
      ProjectFromKwargs(kw).Some? && var m := Membership(db, ProjectFromKwargs(kw).value, req.userId);
      m.OneRow? && m.row.role == Some("Owner")
  {
  }

  /** `HasProjectRole(roles)`: the owner check is the special case `["Owner"]`, and a wider list
      never denies what a narrower one granted. */
  lemma HasProjectRoleMonotone(db: Db, req: Request, kw: Kwargs, allowed: seq<string>, more: seq<string>)
    requires forall r :: r in allowed ==> r in more
    ensures HasPermission(db, req, kw, allowed) == Granted ==> HasPermission(db, req, kw, more) == Granted
  {
    if !IsAdmin(req.role) && ProjectFromKwargs(kw).Some? {
      RoleVerdictMonotone(Membership(db, ProjectFromKwargs(kw).value, req.userId), allowed, more);
    }
  }
}
