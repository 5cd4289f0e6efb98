/**
 * Role checks on the request (common/permissions.py) and the shape every permission decision
 * takes. A request's role is what the authentication service reported, or absent when the
 * middleware did not set one.
 */
module CommonPermissions {
  import opened Wrappers
  import opened Backend

  /** A permission check grants, denies, or raises out of the framework's check. */
  datatype Verdict = Granted | Denied | Raised(e: Exc)

  /** `IsAdmin.has_permission`: `getattr(request, "role", None) == "admin"`. */
  predicate IsAdmin(role: Option<string>) {
    role == Some("admin")
  }

  /** `IsUser.has_permission`: `getattr(request, "role", None) == "user"`. */
  predicate IsUser(role: Option<string>) {
    role == Some("user")
  }

  /** A request without a role passes neither check. */
  lemma NoRoleFailsBoth()
    ensures !IsAdmin(None) && !IsUser(None)
  {
  }

  /** No request passes both checks, and each holds for exactly one role. */
  lemma AdminAndUserExclusive(role: Option<string>)
    ensures !(IsAdmin(role) && IsUser(role))
    ensures IsAdmin(role) ==> role.Some? && role.value == "admin"
    ensures IsUser(role) ==> role.Some? && role.value == "user"
  {
  }

  /** `project_user.role in self.allowed_roles` after a membership lookup: no row denies,
      several rows raise `MultipleObjectsReturned`, which nothing catches. */
  function RoleVerdict(found: Lookup<MemberRow>, allowed: seq<string>): (v: Verdict)
    ensures v == Granted <==> found.OneRow? && found.row.role.Some? && found.row.role.value in allowed
    ensures v.Raised? <==> found.SeveralRows?
    ensures v.Raised? ==> v.e == MultipleObjectsReturned
  {
    match found
    case NoRow => Denied
    case OneRow(m) => if m.role.Some? && m.role.value in allowed then Granted else Denied
    case SeveralRows => Raised(MultipleObjectsReturned)
  }

  /** Allowing more roles never turns a grant into a denial. */
  lemma RoleVerdictMonotone(found: Lookup<MemberRow>, allowed: seq<string>, more: seq<string>)
    requires forall r :: r in allowed ==> r in more
    ensures RoleVerdict(found, allowed) == Granted ==> RoleVerdict(found, more) == Granted
  {
  }
}
