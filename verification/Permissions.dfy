/** The closed permission registry and assignment scopes (core/mdl/permission.go, core/mdl/role.go). */
module Permissions {

  datatype Option<+T> = None | Some(value: T)

  // A Go `Permission` is a string. `Unregistered` stands for every string outside the registry.
  datatype Permission =
    | UserRead | UserCreate | UserUpdate
    | SystemRoleRead | SystemRoleAssign | SystemRoleUnassign
    | ProjectDiscoverAll
    | OrgCreate | ProjectCreate | OrgUserCreate | OrgUserRead
    | CustomRoleCreate | CustomRoleRead | CustomRoleUpdate | CustomRoleDelete
    | CustomRoleAssignProject | CustomRoleUnassignProject
    | CustomRoleAssignOrg | CustomRoleUnassignOrg
    | CustomRoleReadProjectAssignments | CustomRoleReadOrgAssignments
    | Unregistered(name: string)

  // AssignmentScope values, narrowest first.
  type AssignmentScope = int
  const SCOPE_PROJECT: AssignmentScope := 1
  const SCOPE_ORGANIZATION: AssignmentScope := 2
  const SCOPE_SYSTEM: AssignmentScope := 3

  function AllPermissions(): seq<Permission> {
    [ UserRead, UserCreate, UserUpdate, SystemRoleRead, SystemRoleAssign, SystemRoleUnassign,
      ProjectDiscoverAll, OrgCreate, ProjectCreate, OrgUserCreate, OrgUserRead,
      CustomRoleCreate, CustomRoleRead, CustomRoleUpdate, CustomRoleDelete,
      CustomRoleAssignProject, CustomRoleUnassignProject, CustomRoleAssignOrg,
      CustomRoleUnassignOrg, CustomRoleReadProjectAssignments, CustomRoleReadOrgAssignments ]
  }

  function SystemOnlyPermissions(): seq<Permission> {
    [ UserRead, UserCreate, UserUpdate, SystemRoleRead, SystemRoleAssign, SystemRoleUnassign,
      ProjectDiscoverAll ]
  }

  function PermissionsAssignableToCustomRoles(): seq<Permission> {
    [ CustomRoleCreate, CustomRoleRead, CustomRoleUpdate, CustomRoleDelete,
      CustomRoleAssignProject, CustomRoleUnassignProject, CustomRoleAssignOrg,
      CustomRoleUnassignOrg, CustomRoleReadProjectAssignments, CustomRoleReadOrgAssignments,
      OrgCreate, ProjectCreate, OrgUserCreate, OrgUserRead ]
  }

  function OrganizationAdminPermissions(): seq<Permission> {
    [ ProjectCreate, OrgUserCreate, OrgUserRead,
      CustomRoleCreate, CustomRoleRead, CustomRoleUpdate, CustomRoleDelete,
      CustomRoleAssignProject, CustomRoleUnassignProject, CustomRoleAssignOrg,
      CustomRoleUnassignOrg, CustomRoleReadProjectAssignments, CustomRoleReadOrgAssignments ]
  }

  function ToSet<T>(s: seq<T>): set<T> { set x | x in s }

  /** None is the panic of the default branch. */
  function PermissionAssignmentScope(p: Permission): Option<AssignmentScope> {
    if p in SystemOnlyPermissions() then Some(SCOPE_SYSTEM)
    else match p
      case CustomRoleCreate | CustomRoleRead | CustomRoleUpdate | CustomRoleDelete
         | CustomRoleAssignOrg | CustomRoleUnassignOrg | CustomRoleReadOrgAssignments
         | ProjectCreate | OrgUserCreate | OrgUserRead => Some(SCOPE_ORGANIZATION)
      case CustomRoleAssignProject | CustomRoleUnassignProject
         | CustomRoleReadProjectAssignments | OrgCreate => Some(SCOPE_PROJECT)
      case _ => None
  }

  /** Exactly the permissions of a set that may be granted inside one project. */
  predicate ProjectScoped(ps: set<Permission>) {
    forall p :: p in ps ==> PermissionAssignmentScope(p) == Some(SCOPE_PROJECT)
  }

  /** Permissions that a custom role may hold: registered and not system-only. */
  predicate CustomRoleAssignable(ps: set<Permission>) {
    forall p :: p in ps ==> p in PermissionsAssignableToCustomRoles()
  }

  /** `scope` is the broadest of the minimum scopes of `ps`, and project for the empty set. */
  ghost predicate IsMinimumScope(ps: set<Permission>, scope: AssignmentScope) {
    && (forall p :: p in ps ==> PermissionAssignmentScope(p).Some? && PermissionAssignmentScope(p).value <= scope)
    && (scope == SCOPE_PROJECT || exists p :: p in ps && PermissionAssignmentScope(p) == Some(scope))
  }

  /** MinimumAssignmentScope: None when the scan panics on a permission without a defined scope. */
  method MinimumAssignmentScope(permissions: seq<Permission>) returns (r: Option<AssignmentScope>)
    ensures r.Some? <==> forall p :: p in permissions ==> PermissionAssignmentScope(p).Some?
    ensures r.Some? ==> IsMinimumScope(ToSet(permissions), r.value)
  {
    var scope := SCOPE_PROJECT;
    for i := 0 to |permissions|
      invariant IsMinimumScope(ToSet(permissions[..i]), scope)
    {
      var permissionScope := PermissionAssignmentScope(permissions[i]);
      if permissionScope.None? { return None; }
      WidenMinimum(ToSet(permissions[..i]), permissions[i], scope);
      assert ToSet(permissions[..i + 1]) == ToSet(permissions[..i]) + {permissions[i]};
      if permissionScope.value > scope { scope := permissionScope.value; }
    }
    assert permissions[..|permissions|] == permissions;
    return Some(scope);
  }

  lemma WidenMinimum(ps: set<Permission>, p: Permission, scope: AssignmentScope)
    requires IsMinimumScope(ps, scope) && PermissionAssignmentScope(p).Some?
    ensures var wider := PermissionAssignmentScope(p).value;
      IsMinimumScope(ps + {p}, if wider > scope then wider else scope)
  {
  }

  lemma SystemScopeMeansSystemOnly(p: Permission)
    ensures PermissionAssignmentScope(p) == Some(SCOPE_SYSTEM) <==> p in SystemOnlyPermissions()
    ensures PermissionAssignmentScope(p).Some? ==>
      SCOPE_PROJECT <= PermissionAssignmentScope(p).value <= SCOPE_SYSTEM
  {
    match p { case _ => }
  }

  lemma ScopedMeansRegistered(p: Permission)
    ensures PermissionAssignmentScope(p).Some? <==> p in AllPermissions()
  {
    match p { case _ => }
  }

  /** The panic of PermissionAssignmentScope is reached exactly outside the registry. */
  lemma PanicsExactlyOutsideRegistry(p: Permission)
    ensures PermissionAssignmentScope(p).Some? <==> p in AllPermissions()
    ensures PermissionAssignmentScope(p) == Some(SCOPE_SYSTEM) <==> p in SystemOnlyPermissions()
    ensures PermissionAssignmentScope(p).Some? ==>
      SCOPE_PROJECT <= PermissionAssignmentScope(p).value <= SCOPE_SYSTEM
  {
    ScopedMeansRegistered(p);
    SystemScopeMeansSystemOnly(p);
  }

  lemma AssignableHasNarrowScope(i: nat)
    requires i < |PermissionsAssignableToCustomRoles()|
    ensures var scope := PermissionAssignmentScope(PermissionsAssignableToCustomRoles()[i]);
      scope == Some(SCOPE_ORGANIZATION) || scope == Some(SCOPE_PROJECT)
  {
  }

  lemma NarrowScopeIsAssignable(p: Permission)
    requires PermissionAssignmentScope(p) == Some(SCOPE_ORGANIZATION)
      || PermissionAssignmentScope(p) == Some(SCOPE_PROJECT)
    ensures p in PermissionsAssignableToCustomRoles()
  {
    match p { case _ => }
  }

  /** The registry splits into the system-only permissions and those open to custom roles. */
  lemma RegistryPartition(p: Permission)
    ensures p in AllPermissions() <==> p in SystemOnlyPermissions() || p in PermissionsAssignableToCustomRoles()
    ensures !(p in SystemOnlyPermissions() && p in PermissionsAssignableToCustomRoles())
  {
    PanicsExactlyOutsideRegistry(p);
    if p in PermissionsAssignableToCustomRoles() {
      var i :| 0 <= i < |PermissionsAssignableToCustomRoles()| && PermissionsAssignableToCustomRoles()[i] == p;
      AssignableHasNarrowScope(i);
    } else if PermissionAssignmentScope(p).Some? && p !in SystemOnlyPermissions() {
      NarrowScopeIsAssignable(p);
    }
  }

  /** The test `MinimumAssignmentScope(ps) > project` of the assignment code, as a statement about
      every member of the set. */
  lemma ScopeAboveProject(ps: set<Permission>, scope: AssignmentScope)
    requires IsMinimumScope(ps, scope)
    ensures scope > SCOPE_PROJECT <==> !ProjectScoped(ps)
    ensures scope == SCOPE_PROJECT <==> ProjectScoped(ps)
  {
    forall p | p in ps ensures PermissionAssignmentScope(p).value >= SCOPE_PROJECT {
      PanicsExactlyOutsideRegistry(p);
    }
    if scope != SCOPE_PROJECT {
      var p :| p in ps && PermissionAssignmentScope(p) == Some(scope);
      assert PermissionAssignmentScope(p).value >= SCOPE_PROJECT;
    }
  }

  /** The managed administrator role may be held by a custom role, but never inside one project. */
  lemma OrganizationAdminIsOrgScoped()
    ensures CustomRoleAssignable(ToSet(OrganizationAdminPermissions()))
    ensures !ProjectScoped(ToSet(OrganizationAdminPermissions()))
  {
    assert ProjectCreate in ToSet(OrganizationAdminPermissions());
  }

  datatype RoleKind = RoleKindCustom | RoleKindOrganizationAdmin

  /** CustomRole.MinimumAssignmentScope, with the permissions' own minimum for custom roles. */
  function RoleMinimumScope(kind: RoleKind, computed: AssignmentScope): AssignmentScope {
    match kind
    case RoleKindCustom => computed
    case RoleKindOrganizationAdmin => SCOPE_ORGANIZATION
  }

  lemma OrganizationAdminScopes(p: Permission)
    requires p in OrganizationAdminPermissions()
    ensures PermissionAssignmentScope(p).Some? && PermissionAssignmentScope(p).value <= SCOPE_ORGANIZATION
  {
  }

  /** The scope written down for the managed role is the one its permissions have, so both kinds of
      role follow one rule. */
  lemma RoleScopeIsPermissionScope(kind: RoleKind, ps: set<Permission>, computed: AssignmentScope)
    requires IsMinimumScope(ps, computed)
    requires kind == RoleKindOrganizationAdmin ==> ps == ToSet(OrganizationAdminPermissions())
    ensures IsMinimumScope(ps, RoleMinimumScope(kind, computed))
  {
    if kind == RoleKindOrganizationAdmin {
      forall p | p in ps
        ensures PermissionAssignmentScope(p).Some? && PermissionAssignmentScope(p).value <= SCOPE_ORGANIZATION
      {
        OrganizationAdminScopes(p);
      }
      assert OrganizationAdminPermissions()[0] == ProjectCreate;
      assert PermissionAssignmentScope(ProjectCreate) == Some(SCOPE_ORGANIZATION);
    }
  }

  /** validateCustomRolePerms: rejects a list that names a system-only permission. */
  predicate ValidCustomRolePermissions(perms: set<Permission>) {
    forall p :: p in perms ==> p !in SystemOnlyPermissions()
  }

  /** Registered and not system-only is the same as open to custom roles. */
  lemma ValidAndRegistered(ps: set<Permission>)
    ensures ValidCustomRolePermissions(ps) && ps <= ToSet(AllPermissions()) <==> CustomRoleAssignable(ps)
  {
    forall p ensures p in AllPermissions() <==> p in ToSet(AllPermissions()) {}
    forall p | p in ps { RegistryPartition(p); }
  }
}
