/** The role gate around protected content: access when any listed role's flag is set. */
module RoleGuard {
  import Session

  const DENIED: string := "You don't have permission to view this content."

  /** The flag a role name reads; a name outside the four reads false. */
  function RoleFlag(roles: Session.Roles, role: string): (r: bool)
    ensures role == "admin" ==> r == roles.isAdmin
    ensures role == "defaultAdmin" ==> r == roles.isDefaultAdmin
    ensures role == "government" ==> r == roles.isGovernment
    ensures role == "auditor" ==> r == roles.isAuditor
    ensures role !in {"admin", "defaultAdmin", "government", "auditor"} ==> !r
  {
    match role
    case "admin" => roles.isAdmin
    case "defaultAdmin" => roles.isDefaultAdmin
    case "government" => roles.isGovernment
    case "auditor" => roles.isAuditor
    case _ => false
  }

  /** `requiredRoles.some(...)`: access iff at least one listed role's flag is set. */
  function HasRequiredRole(roles: Session.Roles, required: seq<string>): (r: bool)
    ensures r <==> exists i :: 0 <= i < |required| && RoleFlag(roles, required[i])
  {
    if |required| == 0 then false
    else if RoleFlag(roles, required[0]) then true
    else
      var rest := HasRequiredRole(roles, required[1..]);
      assert forall i :: 1 <= i < |required| ==> required[i] == required[1..][i - 1];
      assert rest ==> exists i :: 0 <= i < |required| && RoleFlag(roles, required[i]) by {
        if rest {
          var k :| 0 <= k < |required| - 1 && RoleFlag(roles, required[1..][k]);
          assert RoleFlag(roles, required[k + 1]);
        }
      }
      rest
  }

  /** An empty list of roles is always denied. */
  lemma EmptyListDenied(roles: Session.Roles)
    ensures !HasRequiredRole(roles, [])
  {
  }

  /** Holding every flag another role record holds never loses access. */
  predicate Covers(more: Session.Roles, less: Session.Roles) {
    && (less.isAdmin ==> more.isAdmin)
    && (less.isDefaultAdmin ==> more.isDefaultAdmin)
    && (less.isGovernment ==> more.isGovernment)
    && (less.isAuditor ==> more.isAuditor)
  }

  lemma {:induction false} AccessMonotone(more: Session.Roles, less: Session.Roles, required: seq<string>)
    requires Covers(more, less)
    requires HasRequiredRole(less, required)
    ensures HasRequiredRole(more, required)
  {
    var i :| 0 <= i < |required| && RoleFlag(less, required[i]);
    assert RoleFlag(more, required[i]);
  }

  /** A session with no roles sees no guarded content, whatever the list. */
  lemma NoRolesDenied(required: seq<string>)
    ensures !HasRequiredRole(Session.NO_ROLES, required)
  {
  }

  datatype View<T> = Children(content: T) | Denied(message: string)

  /** The children when access is granted, the fixed denial otherwise. */
  function Render<T>(roles: Session.Roles, required: seq<string>, children: T): (v: View<T>)
    ensures v == Children(children) <==> exists i :: 0 <= i < |required| && RoleFlag(roles, required[i])
    ensures v.Denied? ==> v.message == DENIED
  {
    if HasRequiredRole(roles, required) then Children(children) else Denied(DENIED)
  }
}
