/** The role predicates of src/utils/permissions.ts; an absent role is `None`. */
module Permissions {
  import opened Wrappers
  import opened Types
  import opened Constants

  /** `hasPermission`: a present role whose rank reaches the required one. */
  function HasPermission(userRole: Option<Role>, requiredRole: Role): (r: bool)
    ensures userRole.None? ==> !r
    ensures userRole == Some(SuperAdmin) ==> r
    ensures userRole == Some(Admin) ==> (r <==> requiredRole != SuperAdmin)
    ensures userRole == Some(Staff) ==> (r <==> requiredRole == Staff)
  {
    match userRole
    case None => false
    case Some(role) => Rank(role) >= Rank(requiredRole)
  }

  /** `canCreateUsers`: exactly the roles that hold admin permission. */
  function CanCreateUsers(role: Option<Role>): (r: bool)
    ensures r == HasPermission(role, Admin)
  {
    role == Some(SuperAdmin) || role == Some(Admin)
  }

  /** `canCreateAdmins`: exactly the roles that hold super_admin permission. */
  function CanCreateAdmins(role: Option<Role>): (r: bool)
    ensures r == HasPermission(role, SuperAdmin)
    ensures r ==> CanCreateUsers(role)
  {
    role == Some(SuperAdmin)
  }

  /** `canDeleteDocuments`: the same decision as `canCreateUsers`. */
  function CanDeleteDocuments(role: Option<Role>): (r: bool)
    ensures r == CanCreateUsers(role)
  {
    role == Some(SuperAdmin) || role == Some(Admin)
  }

  /** `canManageCases`: the same decision as `canCreateUsers`. */
  function CanManageCases(role: Option<Role>): (r: bool)
    ensures r == CanCreateUsers(role)
  {
    role == Some(SuperAdmin) || role == Some(Admin)
  }

  /** `hasPermission` is a preorder on present roles. */
  lemma HasPermissionPreorder(a: Role, b: Role, c: Role)
    ensures HasPermission(Some(a), a)
    ensures HasPermission(Some(a), b) && HasPermission(Some(b), c) ==> HasPermission(Some(a), c)
    ensures HasPermission(Some(a), b) && HasPermission(Some(b), a) ==> a == b
  {
  }
}
