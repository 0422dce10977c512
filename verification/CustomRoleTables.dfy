/** The custom-role tables and what the SQL statements of pgrbac/query_custom_role.go do to their rows. */
module CustomRoleTables {
  import opened Permissions
  import opened SystemRoles

  type RoleId = nat
  type ETag = nat
  type OrgId = nat
  type ProjectId = nat

  datatype Role = Role(org: OrgId, name: string, managed: bool, etag: ETag)
  datatype ProjectAssignment = ProjectAssignment(user: UUID, project: ProjectId, role: RoleId)
  datatype OrgAssignment = OrgAssignment(user: UUID, org: OrgId, role: RoleId)

  // rbac.custom_roles, custom_role_permissions, project_role_assignments and org_role_assignments.
  datatype Tables = Tables(
    roles: map<RoleId, Role>,
    rolePerms: set<(RoleId, Permission)>,
    projectAssignments: set<ProjectAssignment>,
    orgAssignments: set<OrgAssignment>)

  /** Tables that no role operation writes: users and system roles, organizations, projects, members. */
  datatype World = World(env: Env, orgs: set<OrgId>, projects: map<ProjectId, OrgId>, members: set<(UUID, OrgId)>)

  function RolePermissions(t: Tables, r: RoleId): set<Permission> {
    set x | x in t.rolePerms && x.0 == r :: x.1
  }

  predicate HasProjectAssignments(t: Tables, r: RoleId) {
    exists a :: a in t.projectAssignments && a.role == r
  }

  predicate Owns(t: Tables, org: OrgId, r: RoleId) {
    r in t.roles && t.roles[r].org == org
  }

  // ---- Effective permissions: system, then organization, then project grants ------------------

  /** rbac.org_permission_ids */
  function OrgPermissions(w: World, t: Tables, sys: Assignments, u: UUID, org: OrgId): set<Permission> {
    (set a, x | a in t.orgAssignments && x in t.rolePerms && a.user == u && a.org == org && x.0 == a.role :: x.1)
    + SystemPermissions(w.env, sys, u)
  }

  /** rbac.project_permission_ids */
  function ProjectPermissions(w: World, t: Tables, sys: Assignments, u: UUID, project: ProjectId): set<Permission> {
    (set a, x | a in t.projectAssignments && x in t.rolePerms
       && a.user == u && a.project == project && x.0 == a.role :: x.1)
    + if project in w.projects then OrgPermissions(w, t, sys, u, w.projects[project]) else {}
  }

  /** Some row gives the user the permission in the organization: an assignment there of a role that has it, or
      a system role that has it. */
  ghost predicate HoldsInOrg(w: World, t: Tables, sys: Assignments, u: UUID, org: OrgId, p: Permission) {
    || (exists a :: a in t.orgAssignments && a.user == u && a.org == org && (a.role, p) in t.rolePerms)
    || (exists x :: x in sys && x.0 == u && x.1 in w.env.roles && p in w.env.roles[x.1])
  }

  /** The same for a project: an assignment in this very project, or anything in its organization. */
  ghost predicate HoldsInProject(w: World, t: Tables, sys: Assignments, u: UUID, project: ProjectId, p: Permission) {
    || (exists a :: a in t.projectAssignments && a.user == u && a.project == project && (a.role, p) in t.rolePerms)
    || (project in w.projects && HoldsInOrg(w, t, sys, u, w.projects[project], p))
  }

  lemma OrgPermissionsAre(w: World, t: Tables, sys: Assignments, u: UUID, org: OrgId)
    ensures forall p :: p in OrgPermissions(w, t, sys, u, org) <==> HoldsInOrg(w, t, sys, u, org, p)
  {
    forall p ensures p in OrgPermissions(w, t, sys, u, org) <==> HoldsInOrg(w, t, sys, u, org, p) {
      if a :| a in t.orgAssignments && a.user == u && a.org == org && (a.role, p) in t.rolePerms {
        assert (a.role, p).0 == a.role && (a.role, p).1 == p;
      }
      if a, x :| a in t.orgAssignments && x in t.rolePerms && a.user == u && a.org == org && x.0 == a.role && x.1 == p {
        assert x == (a.role, p);
      }
    }
  }

  lemma ProjectPermissionsAre(w: World, t: Tables, sys: Assignments, u: UUID, project: ProjectId)
    ensures forall p :: p in ProjectPermissions(w, t, sys, u, project) <==> HoldsInProject(w, t, sys, u, project, p)
  {
    if project in w.projects { OrgPermissionsAre(w, t, sys, u, w.projects[project]); }
    forall p ensures p in ProjectPermissions(w, t, sys, u, project) <==> HoldsInProject(w, t, sys, u, project, p) {
      if a :| a in t.projectAssignments && a.user == u && a.project == project && (a.role, p) in t.rolePerms {
        assert (a.role, p).0 == a.role && (a.role, p).1 == p;
      }
      if a, x :| a in t.projectAssignments && x in t.rolePerms && a.user == u && a.project == project &&
                 x.0 == a.role && x.1 == p
      {
        assert x == (a.role, p);
      }
    }
  }

  // ---- Row changes ------------------------------------------------------------------------------

  datatype RowWrite = InsertRow(role: Role) | UpdateRow(name: Option<string>, etag: ETag) | DeleteRow

  /** The rows one or more statements insert, update and delete. */
  datatype Delta = Delta(
    rows: map<RoleId, RowWrite>,
    permDel: set<(RoleId, Permission)>, permIns: set<(RoleId, Permission)>,
    projectDel: set<ProjectAssignment>, projectIns: set<ProjectAssignment>,
    orgDel: set<OrgAssignment>, orgIns: set<OrgAssignment>)

  const NO_CHANGE := Delta(map[], {}, {}, {}, {}, {}, {})

  function RowAfter(t: Tables, d: Delta, r: RoleId): Option<Role> {
    var before := if r in t.roles then Some(t.roles[r]) else None;
    if r !in d.rows then before
    else match d.rows[r]
      case InsertRow(role) => Some(role)
      case DeleteRow => None
      case UpdateRow(name, etag) =>
        if before.None? then None
        else Some(before.value.(name := if name.Some? then name.value else before.value.name, etag := etag))
  }

  function Apply(t: Tables, d: Delta): Tables {
    Tables(
      map r | r in t.roles.Keys + d.rows.Keys && RowAfter(t, d, r).Some? :: RowAfter(t, d, r).value,
      t.rolePerms - d.permDel + d.permIns,
      t.projectAssignments - d.projectDel + d.projectIns,
      t.orgAssignments - d.orgDel + d.orgIns)
  }

  // ---- Statements -------------------------------------------------------------------------------

  datatype DbError = NoRows | ETagMismatch | UniqueViolation | CheckViolation | ForeignKeyViolation
  datatype Statement = Statement(delta: Delta, error: Option<DbError>)

  function Nothing(e: DbError): Statement { Statement(NO_CHANGE, Some(e)) }

  function Lower(s: string): string {
    seq(|s|, i requires 0 <= i < |s| => if 'A' <= s[i] <= 'Z' then s[i] + 'a' - 'A' else s[i])
  }

  /** Two names fall together exactly if they are the same but for the case of ASCII letters. */
  lemma LowerIgnoresCase(s: string, t: string)
    ensures Lower(s) == Lower(t) <==>
      |s| == |t| && forall i :: 0 <= i < |s| ==>
        || s[i] == t[i]
        || ('A' <= s[i] <= 'Z' && t[i] as int == s[i] as int + 32)
        || ('A' <= t[i] <= 'Z' && s[i] as int == t[i] as int + 32)
  {
    assert |Lower(s)| == |s| && |Lower(t)| == |t|;
    if Lower(s) == Lower(t) {
      forall i | 0 <= i < |s|
        ensures || s[i] == t[i]
                || ('A' <= s[i] <= 'Z' && t[i] as int == s[i] as int + 32)
                || ('A' <= t[i] <= 'Z' && s[i] as int == t[i] as int + 32)
      {
        assert Lower(s)[i] == Lower(t)[i];
      }
    }
  }

  // Unique index on (org_id, lower(name)).
  predicate NameTaken(t: Tables, org: OrgId, name: string, self: RoleId) {
    exists r :: r in t.roles && r != self && t.roles[r].org == org && Lower(t.roles[r].name) == Lower(name)
  }

  // custom_roles_name_check.
  predicate NameCheck(name: string) {
    name != "" && name[0] != ' ' && name[|name| - 1] != ' '
  }

  function RowsOf(r: RoleId, ps: set<Permission>): set<(RoleId, Permission)> { set p | p in ps :: (r, p) }

  /** The row of createCustomRoleQuery, before it is entered in the index of names: nothing is inserted
      unless every permission name resolves. */
  function CreateRowStatement(w: World, org: OrgId, name: string, managed: bool, perms: set<Permission>,
                              id: RoleId, etag: ETag): Statement {
    if !(perms <= w.env.registry) || org !in w.orgs then Nothing(NoRows)
    else if !NameCheck(name) then Nothing(CheckViolation)
    else Statement(NO_CHANGE.(rows := map[id := InsertRow(Role(org, name, managed, etag))],
                              permIns := RowsOf(id, perms)), None)
  }

  /** createCustomRoleQuery. `managed` rows are further unique for their organization. */
  function CreateStatement(w: World, t: Tables, org: OrgId, name: string, managed: bool, perms: set<Permission>,
                           id: RoleId, etag: ETag): Statement {
    var row := CreateRowStatement(w, org, name, managed, perms, id, etag);
    if row.error.Some? then row
    else if NameTaken(t, org, name, id) then Nothing(UniqueViolation)
    else if managed && exists r :: r in t.roles && t.roles[r].org == org && t.roles[r].managed then
      Nothing(UniqueViolation)
    else row
  }

  /** The row of updateCustomRoleQuery, before it is entered in the index of names. The guarded UPDATE picks
      the row by the snapshot the statement began with, and tests it again in the version it finds once the
      row is free, `t`; the fallback branch reads the snapshot only. The two are the same unless the row was
      committed in between. */
  function UpdateRowStatement(w: World, snapshot: Tables, t: Tables, org: OrgId, r: RoleId, etag: ETag,
                              name: Option<string>, perms: Option<set<Permission>>, newETag: ETag): Statement {
    var resolved := perms.None? || perms.value <= w.env.registry;
    if Owns(snapshot, org, r) && snapshot.roles[r].etag == etag && Owns(t, org, r) && t.roles[r].etag == etag
      && resolved then
      if name.Some? && !NameCheck(name.value) then Nothing(CheckViolation)
      else Statement(NO_CHANGE.(rows := map[r := UpdateRow(name, newETag)]), None)
    else if Owns(snapshot, org, r) && snapshot.roles[r].etag != etag then Nothing(ETagMismatch)
    else Nothing(NoRows)
  }

  /** updateCustomRoleQuery */
  function UpdateStatement(w: World, snapshot: Tables, t: Tables, org: OrgId, r: RoleId, etag: ETag,
                           name: Option<string>, perms: Option<set<Permission>>, newETag: ETag): Statement {
    var row := UpdateRowStatement(w, snapshot, t, org, r, etag, name, perms, newETag);
    if row.error.None? && name.Some? && NameTaken(t, org, name.value, r) then Nothing(UniqueViolation) else row
  }

  /** deleteCustomRolePermissionsQuery */
  function DeletePermissionsStatement(t: Tables, org: OrgId, r: RoleId): Statement {
    Statement(NO_CHANGE.(permDel := if Owns(t, org, r) then RowsOf(r, RolePermissions(t, r)) else {}), None)
  }

  /** insertCustomRolePermissionsQuery: no ON CONFLICT, so an existing row is a unique violation. */
  function InsertPermissionsStatement(w: World, t: Tables, r: RoleId, perms: set<Permission>): Statement {
    if r !in t.roles || !(perms <= w.env.registry) then Statement(NO_CHANGE, None)
    else if perms * RolePermissions(t, r) != {} then Nothing(UniqueViolation)
    else Statement(NO_CHANGE.(permIns := RowsOf(r, perms)), None)
  }

  /** The data-modifying CTEs of modifyCustomRolePermissionsQuery, each evaluated on the snapshot `t`. */
  datatype ModifyCtes = ModifyCtes(target: bool, removed: set<Permission>, added: set<Permission>, updated: bool)

  function EvaluateModify(w: World, t: Tables, org: OrgId, r: RoleId, etag: ETag,
                          add: set<Permission>, remove: set<Permission>): ModifyCtes {
    var resolved := add + remove <= w.env.registry;
    var target := resolved && Owns(t, org, r) && t.roles[r].etag == etag;
    var removed := if target then RolePermissions(t, r) * remove else {};
    var added := if target then add - RolePermissions(t, r) else {};
    ModifyCtes(target, removed, added, target && (removed != {} || added != {}))
  }

  /** modifyCustomRolePermissionsQuery and its result row. */
  function ModifyStatement(w: World, t: Tables, org: OrgId, r: RoleId, etag: ETag,
                           add: set<Permission>, remove: set<Permission>, newETag: ETag): Statement {
    var ctes := EvaluateModify(w, t, org, r, etag, add, remove);
    if ctes.target then
      Statement(NO_CHANGE.(rows := if ctes.updated then map[r := UpdateRow(None, newETag)] else map[],
                          permDel := RowsOf(r, ctes.removed), permIns := RowsOf(r, ctes.added)), None)
    else if !(add + remove <= w.env.registry) then Nothing(NoRows)
    else if Owns(t, org, r) then Nothing(ETagMismatch)
    else Nothing(NoRows)
  }

  function DeleteProjectAssignmentsStatement(t: Tables, org: OrgId, r: RoleId): Statement {
    Statement(NO_CHANGE.(projectDel := set a | a in t.projectAssignments && a.role == r && Owns(t, org, r)), None)
  }

  function DeleteOrgAssignmentsStatement(t: Tables, org: OrgId, r: RoleId): Statement {
    Statement(NO_CHANGE.(orgDel := set a | a in t.orgAssignments && a.role == r && Owns(t, org, r)), None)
  }

  /** A row of another table still refers to the role. No foreign key to custom_roles cascades. */
  predicate Referenced(t: Tables, r: RoleId) {
    || (exists x :: x in t.rolePerms && x.0 == r)
    || HasProjectAssignments(t, r)
    || (exists a :: a in t.orgAssignments && a.role == r)
  }

  /** deleteCustomRoleQuery. The foreign keys are checked when the row is free to be deleted. */
  function DeleteRoleStatement(t: Tables, org: OrgId, r: RoleId): Statement {
    if !Owns(t, org, r) then Nothing(NoRows)
    else if Referenced(t, r) then Nothing(ForeignKeyViolation)
    else Statement(NO_CHANGE.(rows := map[r := DeleteRow]), None)
  }

  /** assignCustomRoleToProjectQuery. The SELECT that supplies the row sees the snapshot the statement
      began with; the unique and the foreign key are checked against the tables it inserts into. */
  function AssignToProjectStatement(w: World, snapshot: Tables, t: Tables, u: UUID, r: RoleId,
                                    project: ProjectId): Statement {
    var row := ProjectAssignment(u, project, r);
    if u !in w.env.users || project !in w.projects || !Owns(snapshot, w.projects[project], r)
       || (u, w.projects[project]) !in w.members then Nothing(NoRows)
    else if row in t.projectAssignments then Nothing(UniqueViolation)
    else if !Owns(t, w.projects[project], r) then Nothing(ForeignKeyViolation)
    else Statement(NO_CHANGE.(projectIns := {row}), None)
  }

  /** unassignCustomRoleFromProjectQuery */
  function UnassignFromProjectStatement(w: World, t: Tables, u: UUID, r: RoleId, project: ProjectId): Statement {
    var row := ProjectAssignment(u, project, r);
    if u !in w.env.users || project !in w.projects || !Owns(t, w.projects[project], r)
       || (u, w.projects[project]) !in w.members || row !in t.projectAssignments then Nothing(NoRows)
    else Statement(NO_CHANGE.(projectDel := {row}), None)
  }

  /** assignCustomRoleToOrgQuery */
  function AssignToOrgStatement(w: World, snapshot: Tables, t: Tables, u: UUID, r: RoleId, org: OrgId): Statement {
    var row := OrgAssignment(u, org, r);
    if u !in w.env.users || (u, org) !in w.members || !Owns(snapshot, org, r) then Nothing(NoRows)
    else if row in t.orgAssignments then Nothing(UniqueViolation)
    else if !Owns(t, org, r) then Nothing(ForeignKeyViolation)
    else Statement(NO_CHANGE.(orgIns := {row}), None)
  }

  /** unassignCustomRoleFromOrgQuery */
  function UnassignFromOrgStatement(w: World, t: Tables, u: UUID, r: RoleId, org: OrgId): Statement {
    var row := OrgAssignment(u, org, r);
    if u !in w.env.users || (u, org) !in w.members || !Owns(t, org, r) || row !in t.orgAssignments then Nothing(NoRows)
    else Statement(NO_CHANGE.(orgDel := {row}), None)
  }

  /** createOrganization's role: the managed administrator role, given to the creator. */
  const ADMINISTRATOR_NAME := "Organization Administrator"

  function BootstrapRows(org: OrgId, creator: UUID, id: RoleId, etag: ETag): Delta {
    NO_CHANGE.(rows := map[id := InsertRow(Role(org, ADMINISTRATOR_NAME, true, etag))],
               permIns := RowsOf(id, ToSet(OrganizationAdminPermissions())),
               orgIns := {OrgAssignment(creator, org, id)})
  }

  // ---- What the statements mean -----------------------------------------------------------------

  /** The tables with the permissions of `r` replaced and its row rewritten. */
  function Replaced(t: Tables, r: RoleId, role: Role, ps: set<Permission>): Tables {
    t.(roles := t.roles[r := role], rolePerms := (set x | x in t.rolePerms && x.0 != r) + RowsOf(r, ps))
  }

  lemma PermissionsAfter(t: Tables, d: Delta, r: RoleId)
    ensures forall p :: p in RolePermissions(Apply(t, d), r) <==>
              (r, p) in d.permIns || (p in RolePermissions(t, r) && (r, p) !in d.permDel)
  {
    var t' := Apply(t, d);
    forall p ensures p in RolePermissions(t', r) <==> (r, p) in t'.rolePerms {}
    forall p ensures p in RolePermissions(t, r) <==> (r, p) in t.rolePerms {}
  }

  /** The modify statement leaves what its caller computed in Go, (current + add) - remove, exactly when
      every permission named on both sides is one the role already has. */
  lemma ModifyAgreesWithNextPerms(w: World, t: Tables, org: OrgId, r: RoleId, etag: ETag,
                                  add: set<Permission>, remove: set<Permission>, newETag: ETag)
    requires Owns(t, org, r) && t.roles[r].etag == etag && add + remove <= w.env.registry
    ensures var after := RolePermissions(Apply(t, ModifyStatement(w, t, org, r, etag, add, remove, newETag).delta), r);
      after == (RolePermissions(t, r) + add) - remove <==> add * remove <= RolePermissions(t, r)
  {
    var d := ModifyStatement(w, t, org, r, etag, add, remove, newETag).delta;
    var current, after := RolePermissions(t, r), RolePermissions(Apply(t, d), r);
    PermissionsAfter(t, d, r);
    forall p ensures p in after <==> p in (current - (current * remove)) + (add - current) {}
    if after == (current + add) - remove {
      forall p | p in add * remove ensures p in current {
        assert p !in after;
      }
    }
  }

  /** A disjoint modify is one replacement of the role's permissions; the ETag is renewed exactly when
      the set changed, and nothing else in the database moves. */
  lemma ModifyIsReplacement(w: World, t: Tables, org: OrgId, r: RoleId, etag: ETag,
                            add: set<Permission>, remove: set<Permission>, newETag: ETag)
    requires Owns(t, org, r) && t.roles[r].etag == etag && add + remove <= w.env.registry && add !! remove
    ensures var s := ModifyStatement(w, t, org, r, etag, add, remove, newETag);
      var current := RolePermissions(t, r);
      var next := (current + add) - remove;
      && s.error.None?
      && Apply(t, s.delta) == Replaced(t, r, t.roles[r].(etag := if next == current then etag else newETag), next)
  {
    var s := ModifyStatement(w, t, org, r, etag, add, remove, newETag);
    var current := RolePermissions(t, r);
    var next := (current + add) - remove;
    var ctes := EvaluateModify(w, t, org, r, etag, add, remove);
    assert next == (current - ctes.removed) + ctes.added;
    assert ctes.updated <==> next != current by {
      if p :| p in ctes.removed { assert p in current && p !in next; }
      if p :| p in ctes.added { assert p !in current && p in next; }
    }
    var want := Replaced(t, r, t.roles[r].(etag := if next == current then etag else newETag), next);
    var got := Apply(t, s.delta);
    ReplacedRows(t, s.delta, r, next);
    assert got.roles == want.roles;
  }

  /** A delta that touches only the permission rows of `r` and turns them into `ps`. */
  lemma ReplacedRows(t: Tables, d: Delta, r: RoleId, ps: set<Permission>)
    requires forall x :: x in d.permDel || x in d.permIns ==> x.0 == r
    requires forall p :: p in ps <==> (r, p) in d.permIns || (p in RolePermissions(t, r) && (r, p) !in d.permDel)
    ensures Apply(t, d).rolePerms == (set x | x in t.rolePerms && x.0 != r) + RowsOf(r, ps)
  {
    var got, want := Apply(t, d).rolePerms, (set x | x in t.rolePerms && x.0 != r) + RowsOf(r, ps);
    forall x ensures x in got <==> x in want {
      if x.0 == r {
        assert x == (r, x.1);
        assert x in t.rolePerms <==> x.1 in RolePermissions(t, r);
      }
    }
  }
}
