/** The authorization checks of api/auth/decorators.py. Verifying the JWT
    itself is Flask-JWT-Extended's work and is not modelled: each gate is
    given the role claim of an already verified token, `None` when the
    token carries no `role` claim. */
module AuthDecorators {
  import opened Values

  /** What a gate does with a request: hand it on to the endpoint, or
      answer with a 403 body of `error` and `message`. */
  datatype Gate = Pass | Forbidden(error: string, message: string)

  /** The HTTP status a gate answers with when it stops a request. */
  const ForbiddenStatus: nat := 403

  /** `claims.get('role') == 'admin'`: only the string `admin` compares
      equal to it. */
  predicate IsAdmin(role: Option<Value>)
  {
    role == Some(Str("admin"))
  }

  /** The check inside `admin_required`. */
  function AdminRequired(role: Option<Value>): (g: Gate)
    ensures g.Pass? <==> role == Some(Str("admin"))
    ensures g.Forbidden? ==> g.error == "Admin access required"
    ensures g.Forbidden? ==> g.message == "You do not have permission to access this resource"
  {
    if !IsAdmin(role) then
      Forbidden("Admin access required", "You do not have permission to access this resource")
    else Pass
  }

  /** The check inside `role_required(required)`; every use in the
      application passes a string for `required`. */
  function RoleRequired(required: string, role: Option<Value>): (g: Gate)
    ensures g.Pass? <==> role == Some(Str(required)) || role == Some(Str("admin"))
    ensures g.Forbidden? ==> g.error == "Insufficient permissions"
    ensures g.Forbidden? ==> g.message == "Role \"" + required + "\" is required"
  {
    if role != Some(Str(required)) && !IsAdmin(role) then
      Forbidden("Insufficient permissions", "Role \"" + required + "\" is required")
    else Pass
  }

  /** An administrator passes every role gate. */
  lemma AdminPassesEveryRole(required: string)
    ensures RoleRequired(required, Some(Str("admin"))) == Pass
  {
  }

  /** Whatever `admin_required` lets through, `role_required` lets through
      too, for every required role. */
  lemma AdminGateIsStrictest(role: Option<Value>, required: string)
    requires AdminRequired(role) == Pass
    ensures RoleRequired(required, role) == Pass
  {
  }

  /** `role_required('admin')` admits exactly the callers `admin_required`
      admits. */
  lemma AdminRoleGateIsAdminGate(role: Option<Value>)
    ensures RoleRequired("admin", role).Pass? <==> AdminRequired(role).Pass?
  {
  }

  /** A caller whose role is neither the required one nor `admin` is turned
      away, and so is a token without a role claim. */
  lemma OtherRolesRejected(required: string, role: Option<Value>)
    requires required != "admin"
    requires role != Some(Str(required)) && role != Some(Str("admin"))
    ensures RoleRequired(required, role) == Forbidden("Insufficient permissions", "Role \"" + required + "\" is required")
    ensures RoleRequired(required, None).Forbidden?
  {
  }

  /** Passing two gates for different non-admin roles takes the admin
      role: no ordinary role opens more than its own gate. */
  lemma TwoRolesMeanAdmin(r1: string, r2: string, role: Option<Value>)
    requires r1 != r2
    requires RoleRequired(r1, role) == Pass && RoleRequired(r2, role) == Pass
    ensures IsAdmin(role)
  {
  }
}
