/** The answer of each operation and its effect, row by row: who may do what, why not, and which rows move.
    CustomRoleSpec puts the same in terms of sets and in the order of the code. */
module CustomRoleAnswers {
  import opened Permissions
  import opened SystemRoles
  import opened CustomRoleTables
  import opened CustomRoleProtocol
  import opened CustomRoleSpec

  // ---- Roles against holdings ---------------------------------------------------------------------

  lemma RoleIsHeldInOrg(w: World, t: Tables, sys: Assignments, u: UUID, org: OrgId, r: RoleId)
    ensures RolePermissions(t, r) <= OrgPermissions(w, t, sys, u, org) <==>
            forall p :: (r, p) in t.rolePerms ==> HoldsInOrg(w, t, sys, u, org, p)
  {
    OrgPermissionsAre(w, t, sys, u, org);
    RolePermissionsAre(t, r);
  }

  lemma RoleIsHeldInProject(w: World, t: Tables, sys: Assignments, u: UUID, project: ProjectId, r: RoleId)
    ensures RolePermissions(t, r) <= ProjectPermissions(w, t, sys, u, project) <==>
            forall p :: (r, p) in t.rolePerms ==> HoldsInProject(w, t, sys, u, project, p)
  {
    ProjectPermissionsAre(w, t, sys, u, project);
    RolePermissionsAre(t, r);
  }

  lemma RolePermissionsAre(t: Tables, r: RoleId)
    ensures forall p :: p in RolePermissions(t, r) <==> (r, p) in t.rolePerms
  {
    forall p ensures p in RolePermissions(t, r) <==> (r, p) in t.rolePerms {
      if (r, p) in t.rolePerms { assert (r, p).0 == r && (r, p).1 == p; }
    }
  }

  predicate InProjectScope(p: Permission) { PermissionAssignmentScope(p) == Some(SCOPE_PROJECT) }

  lemma RoleIsScoped(t: Tables, r: RoleId)
    ensures ProjectScoped(RolePermissions(t, r)) <==> forall p :: (r, p) in t.rolePerms ==> InProjectScope(p)
  {
    RolePermissionsAre(t, r);
  }

  /** The actor and the project exist, and the project's organization has the role. */
  ghost predicate Finds(w: World, t: Tables, actor: UUID, project: ProjectId, r: RoleId) {
    actor in w.env.users && project in w.projects && r in t.roles && t.roles[r].org == w.projects[project]
  }

  /** No other role of the organization has the name, regardless of case. */
  ghost predicate Free(t: Tables, org: OrgId, name: string, self: RoleId) {
    forall q :: q in t.roles && q != self && t.roles[q].org == org ==> Lower(t.roles[q].name) != Lower(name)
  }

  // ---- Create -------------------------------------------------------------------------------------

  ghost predicate CreateAnswered(w: World, t: Tables, sys: Assignments, actor: UUID, project: ProjectId, name: string,
                                 perms: set<Permission>, newRole: RoleId, newETag: ETag, t': Tables, r: Outcome) {
    var valid := ValidName(name) && forall p :: p in perms ==> p !in SystemOnlyPermissions();
    var found := valid && actor in w.env.users && project in w.projects;
    var allowed := found && forall p :: p in perms ==> HoldsInOrg(w, t, sys, actor, w.projects[project], p);
    var taken := allowed
      && exists q :: q in t.roles && t.roles[q].org == w.projects[project] && Lower(t.roles[q].name) == Lower(name);
    && (r == Success <==> allowed && !taken)
    && (r == Failure(CoreError.Exists) <==> taken)
    && (r == Failure(CoreError.Denied) <==> found && !allowed)
    && (r == Failure(CoreError.Missing) <==> valid && !found)
    && (r == Failure(CoreError.Validation) <==> !valid)
    && (r != Success ==> t' == t)
    && (r == Success ==>
          && t'.roles == t.roles[newRole := Role(w.projects[project], name, false, newETag)]
          && (forall q, p :: (q, p) in t'.rolePerms <==> (q, p) in t.rolePerms || (q == newRole && p in perms))
          && t'.projectAssignments == t.projectAssignments && t'.orgAssignments == t.orgAssignments)
  }

  lemma CreateIsAnswered(w: World, t: Tables, sys: Assignments, actor: UUID, project: ProjectId, name: string,
                         perms: set<Permission>, newRole: RoleId, newETag: ETag)
    ensures var (t', r) := Expected(w, t, sys, Create(actor, project, name, perms), newRole, newETag);
      CreateAnswered(w, t, sys, actor, project, name, perms, newRole, newETag, t', r)
  {
    if project in w.projects { OrgPermissionsAre(w, t, sys, actor, w.projects[project]); }
  }

  // ---- Edits --------------------------------------------------------------------------------------

  /** The permission is on one side only: among those the role has, or among `perms`. */
  ghost predicate Differs(t: Tables, r: RoleId, perms: set<Permission>, p: Permission) {
    ((r, p) in t.rolePerms) != (p in perms)
  }

  ghost predicate Assigned(t: Tables, r: RoleId) { exists a :: a in t.projectAssignments && a.role == r }

  ghost predicate UpdateAnswered(w: World, t: Tables, sys: Assignments, actor: UUID, project: ProjectId, r: RoleId,
                                 etag: ETag, newName: Option<string>, perms: set<Permission>, newETag: ETag, t': Tables,
                                 result: Outcome) {
    var valid := etag != 0 && (newName.Some? ==> ValidName(newName.value))
      && forall p :: p in perms ==> p !in SystemOnlyPermissions();
    var found := valid && Finds(w, t, actor, project, r);
    var open := found && !t.roles[r].managed;
    var allowed := open
      && forall p :: Differs(t, r, perms, p) ==> HoldsInOrg(w, t, sys, actor, w.projects[project], p);
    var scoped := allowed && (Assigned(t, r) ==> forall p :: p in perms ==> InProjectScope(p));
    var current := scoped && t.roles[r].etag == etag;
    var free := current && (newName.Some? ==> Free(t, w.projects[project], newName.value, r));
    && (result == Success <==> free)
    && (result == Failure(CoreError.Exists) <==> current && !free)
    && (result == Failure(CoreError.Mismatch) <==> scoped && !current)
    && (result == Failure(CoreError.WrongScope) <==> allowed && !scoped)
    && (result == Failure(CoreError.Denied) <==> open && !allowed)
    && (result == Failure(CoreError.Managed) <==> found && !open)
    && (result == Failure(CoreError.Missing) <==> valid && !found)
    && (result == Failure(CoreError.Validation) <==> !valid)
    && (result != Success ==> t' == t)
    && (result == Success ==>
          && t'.roles == t.roles[r := Role(t.roles[r].org, if newName.Some? then newName.value else t.roles[r].name,
                                           false, newETag)]
          && (forall q, p :: (q, p) in t'.rolePerms <==> if q == r then p in perms else (q, p) in t.rolePerms)
          && t'.projectAssignments == t.projectAssignments && t'.orgAssignments == t.orgAssignments)
  }

  ghost predicate RenameAnswered(t: Tables, org: OrgId, r: RoleId, etag: ETag, newName: Option<string>, newETag: ETag,
                                 t': Tables, result: Outcome) {
    var valid := etag != 0 && (newName.Some? ==> ValidName(newName.value));
    var found := valid && r in t.roles && t.roles[r].org == org;
    var current := found && t.roles[r].etag == etag;
    var free := current && (newName.Some? ==> Free(t, org, newName.value, r));
    && (result == Success <==> free)
    && (result == Failure(CoreError.Exists) <==> current && !free)
    && (result == Failure(CoreError.Mismatch) <==> found && !current)
    && (result == Failure(CoreError.Missing) <==> valid && !found)
    && (result == Failure(CoreError.Validation) <==> !valid)
    && (result != Success ==> t' == t)
    && (result == Success ==>
          && t'.roles == t.roles[r := Role(org, if newName.Some? then newName.value else t.roles[r].name,
                                           t.roles[r].managed, newETag)]
          && t'.rolePerms == t.rolePerms
          && t'.projectAssignments == t.projectAssignments && t'.orgAssignments == t.orgAssignments)
  }

  /** The edit adds or removes the permission. */
  ghost predicate Moves(t: Tables, r: RoleId, add: set<Permission>, remove: set<Permission>, p: Permission) {
    (p in add && (r, p) !in t.rolePerms) || (p in remove && (r, p) in t.rolePerms)
  }

  ghost predicate HasAfter(t: Tables, r: RoleId, add: set<Permission>, remove: set<Permission>, p: Permission) {
    ((r, p) in t.rolePerms || p in add) && p !in remove
  }

  ghost predicate ModifyAnswered(w: World, t: Tables, sys: Assignments, actor: UUID, project: ProjectId, r: RoleId,
                                 etag: ETag, add: set<Permission>, remove: set<Permission>, newETag: ETag, t': Tables,
                                 result: Outcome) {
    var valid := etag != 0 && add !! remove
      && forall p :: p in add || p in remove ==> p !in SystemOnlyPermissions();
    var found := valid && Finds(w, t, actor, project, r);
    var open := found && !t.roles[r].managed;
    var allowed := open
      && forall p :: Moves(t, r, add, remove, p) ==> HoldsInOrg(w, t, sys, actor, w.projects[project], p);
    var scoped := allowed && (Assigned(t, r) ==> forall p :: HasAfter(t, r, add, remove, p) ==> InProjectScope(p));
    var known := scoped && forall p :: p in remove ==> p in w.env.registry;
    && (result == Success <==> known && t.roles[r].etag == etag)
    && (result == Failure(CoreError.Mismatch) <==> known && t.roles[r].etag != etag)
    && (result == Failure(CoreError.Internal) <==> scoped && !known)
    && (result == Failure(CoreError.WrongScope) <==> allowed && !scoped)
    && (result == Failure(CoreError.Denied) <==> open && !allowed)
    && (result == Failure(CoreError.Managed) <==> found && !open)
    && (result == Failure(CoreError.Missing) <==> valid && !found)
    && (result == Failure(CoreError.Validation) <==> !valid)
    && (result != Success ==> t' == t)
    && (result == Success ==>
          && t'.roles == (if exists p :: Moves(t, r, add, remove, p) then t.roles[r := t.roles[r].(etag := newETag)]
                          else t.roles)
          && (forall q, p :: (q, p) in t'.rolePerms <==>
                if q == r then HasAfter(t, r, add, remove, p) else (q, p) in t.rolePerms)
          && t'.projectAssignments == t.projectAssignments && t'.orgAssignments == t.orgAssignments)
  }

  lemma ReplacedAre(t: Tables, r: RoleId, role: Role, ps: set<Permission>)
    ensures forall q, p :: (q, p) in Replaced(t, r, role, ps).rolePerms <==>
              if q == r then p in ps else (q, p) in t.rolePerms
  {
  }

  lemma DifferencesAreChanges(t: Tables, r: RoleId, perms: set<Permission>)
    ensures forall p :: p in Changed(RolePermissions(t, r), perms) <==> Differs(t, r, perms, p)
  {
    RolePermissionsAre(t, r);
  }

  lemma UpdateIsAnswered(w: World, t: Tables, sys: Assignments, actor: UUID, project: ProjectId, r: RoleId, etag: ETag,
                         newName: Option<string>, perms: set<Permission>, newETag: ETag)
    ensures var (t', result) := Expected(w, t, sys, Update(actor, project, r, etag, newName, perms), 0, newETag);
      UpdateAnswered(w, t, sys, actor, project, r, etag, newName, perms, newETag, t', result)
  {
    var req := Update(actor, project, r, etag, newName, perms);
    if project in w.projects { OrgPermissionsAre(w, t, sys, actor, w.projects[project]); }
    DifferencesAreChanges(t, r, perms);
    if r in t.roles { ReplacedAre(t, r, EditedRow(t, req, newETag), perms); }
  }

  lemma RenameIsAnswered(w: World, t: Tables, sys: Assignments, org: OrgId, r: RoleId, etag: ETag,
                         newName: Option<string>, newETag: ETag)
    ensures var (t', result) := Expected(w, t, sys, Rename(org, r, etag, newName), 0, newETag);
      RenameAnswered(t, org, r, etag, newName, newETag, t', result)
  {
    if r in t.roles {
      var row := EditedRow(t, Rename(org, r, etag, newName), newETag);
      RolePermissionsAre(t, r);
      ReplacedAre(t, r, row, RolePermissions(t, r));
      forall x ensures x in Replaced(t, r, row, RolePermissions(t, r)).rolePerms <==> x in t.rolePerms {
        assert x == (x.0, x.1);
      }
    }
  }

  lemma MovesAreChanges(t: Tables, r: RoleId, add: set<Permission>, remove: set<Permission>)
    requires add !! remove
    ensures var current := RolePermissions(t, r); var next := (current + add) - remove;
      && (forall p :: p in next <==> HasAfter(t, r, add, remove, p))
      && (forall p :: p in Changed(current, next) <==> Moves(t, r, add, remove, p))
      && (next == current <==> !exists p :: Moves(t, r, add, remove, p))
  {
    var current := RolePermissions(t, r);
    var next := (current + add) - remove;
    RolePermissionsAre(t, r);
    if p :| Moves(t, r, add, remove, p) { assert (p in current) != (p in next); }
    if next != current {
      var p :| (p in current) != (p in next);
      assert Moves(t, r, add, remove, p);
    }
  }

  lemma ModifyIsAnswered(w: World, t: Tables, sys: Assignments, actor: UUID, project: ProjectId, r: RoleId, etag: ETag,
                         add: set<Permission>, remove: set<Permission>, newETag: ETag)
    ensures var (t', result) := Expected(w, t, sys, Modify(actor, project, r, etag, add, remove), 0, newETag);
      ModifyAnswered(w, t, sys, actor, project, r, etag, add, remove, newETag, t', result)
  {
    var req := Modify(actor, project, r, etag, add, remove);
    if project in w.projects { OrgPermissionsAre(w, t, sys, actor, w.projects[project]); }
    if add !! remove { MovesAreChanges(t, r, add, remove); }
    if r in t.roles { ReplacedAre(t, r, EditedRow(t, req, newETag), Wanted(req, RolePermissions(t, r))); }
  }

  // ---- Delete -------------------------------------------------------------------------------------

  ghost predicate DeleteAnswered(w: World, t: Tables, sys: Assignments, actor: UUID, project: ProjectId, r: RoleId,
                                 t': Tables, result: Outcome) {
    var found := Finds(w, t, actor, project, r);
    var open := found && !t.roles[r].managed;
    var allowed := open && forall p :: (r, p) in t.rolePerms ==> HoldsInOrg(w, t, sys, actor, w.projects[project], p);
    && (result == Success <==> allowed)
    && (result == Failure(CoreError.Denied) <==> open && !allowed)
    && (result == Failure(CoreError.Managed) <==> found && !open)
    && (result == Failure(CoreError.Missing) <==> !found)
    && (result != Success ==> t' == t)
    && (result == Success ==>
          && t'.roles == t.roles - {r}
          && (forall q, p :: (q, p) in t'.rolePerms <==> (q, p) in t.rolePerms && q != r)
          && (forall a :: a in t'.projectAssignments <==> a in t.projectAssignments && a.role != r)
          && (forall a :: a in t'.orgAssignments <==> a in t.orgAssignments && a.role != r))
  }

  lemma DeleteIsAnswered(w: World, t: Tables, sys: Assignments, actor: UUID, project: ProjectId, r: RoleId)
    ensures var (t', result) := Expected(w, t, sys, Delete(actor, project, r), 0, 0);
      DeleteAnswered(w, t, sys, actor, project, r, t', result)
  {
    if project in w.projects { RoleIsHeldInOrg(w, t, sys, actor, w.projects[project], r); }
  }

  // ---- Assignments --------------------------------------------------------------------------------

  /** The target is a member of the project's organization. */
  ghost predicate Joins(w: World, project: ProjectId, target: UUID)
    requires project in w.projects
  {
    target in w.env.users && (target, w.projects[project]) in w.members
  }

  ghost predicate AssignToProjectAnswered(w: World, t: Tables, sys: Assignments, actor: UUID, project: ProjectId,
                                          target: UUID, r: RoleId, t': Tables, result: Outcome) {
    var row := ProjectAssignment(target, project, r);
    var found := Finds(w, t, actor, project, r);
    var scoped := found && forall p :: (r, p) in t.rolePerms ==> InProjectScope(p);
    var allowed := scoped && forall p :: (r, p) in t.rolePerms ==> HoldsInProject(w, t, sys, actor, project, p);
    var joins := allowed && Joins(w, project, target);
    && (result == Success <==> joins && row !in t.projectAssignments)
    && (result == Failure(CoreError.Exists) <==> joins && row in t.projectAssignments)
    && (result == Failure(CoreError.Missing) <==> !found || (allowed && !joins))
    && (result == Failure(CoreError.Denied) <==> scoped && !allowed)
    && (result == Failure(CoreError.WrongScope) <==> found && !scoped)
    && t' == if result == Success then t.(projectAssignments := t.projectAssignments + {row}) else t
  }

  ghost predicate UnassignFromProjectAnswered(w: World, t: Tables, sys: Assignments, actor: UUID, project: ProjectId,
                                              target: UUID, r: RoleId, t': Tables, result: Outcome) {
    var row := ProjectAssignment(target, project, r);
    var found := Finds(w, t, actor, project, r);
    var allowed := found && forall p :: (r, p) in t.rolePerms ==> HoldsInProject(w, t, sys, actor, project, p);
    var there := allowed && Joins(w, project, target) && row in t.projectAssignments;
    && (result == Success <==> there)
    && (result == Failure(CoreError.Missing) <==> !found || (allowed && !there))
    && (result == Failure(CoreError.Denied) <==> found && !allowed)
    && t' == if result == Success then t.(projectAssignments := t.projectAssignments - {row}) else t
  }

  ghost predicate AssignToOrgAnswered(w: World, t: Tables, sys: Assignments, actor: UUID, project: ProjectId,
                                      target: UUID, r: RoleId, t': Tables, result: Outcome) {
    var row := OrgAssignment(target, if project in w.projects then w.projects[project] else 0, r);
    var found := Finds(w, t, actor, project, r);
    var allowed := found && forall p :: (r, p) in t.rolePerms ==> HoldsInOrg(w, t, sys, actor, w.projects[project], p);
    var joins := allowed && Joins(w, project, target);
    && (result == Success <==> joins && row !in t.orgAssignments)
    && (result == Failure(CoreError.Exists) <==> joins && row in t.orgAssignments)
    && (result == Failure(CoreError.Missing) <==> !found || (allowed && !joins))
    && (result == Failure(CoreError.Denied) <==> found && !allowed)
    && t' == if result == Success then t.(orgAssignments := t.orgAssignments + {row}) else t
  }

  ghost predicate UnassignFromOrgAnswered(w: World, t: Tables, sys: Assignments, actor: UUID, project: ProjectId,
                                          target: UUID, r: RoleId, t': Tables, result: Outcome) {
    var row := OrgAssignment(target, if project in w.projects then w.projects[project] else 0, r);
    var found := Finds(w, t, actor, project, r);
    var allowed := found && forall p :: (r, p) in t.rolePerms ==> HoldsInOrg(w, t, sys, actor, w.projects[project], p);
    var there := allowed && Joins(w, project, target) && row in t.orgAssignments;
    && (result == Success <==> there)
    && (result == Failure(CoreError.Missing) <==> !found || (allowed && !there))
    && (result == Failure(CoreError.Denied) <==> found && !allowed)
    && t' == if result == Success then t.(orgAssignments := t.orgAssignments - {row}) else t
  }

  lemma AssignToProjectIsAnswered(w: World, t: Tables, sys: Assignments, actor: UUID, project: ProjectId, target: UUID,
                                  r: RoleId)
    ensures var (t', result) := Expected(w, t, sys, AssignToProject(actor, project, target, r), 0, 0);
      AssignToProjectAnswered(w, t, sys, actor, project, target, r, t', result)
  {
    RoleIsHeldInProject(w, t, sys, actor, project, r);
    RoleIsScoped(t, r);
  }

  lemma UnassignFromProjectIsAnswered(w: World, t: Tables, sys: Assignments, actor: UUID, project: ProjectId,
                                      target: UUID, r: RoleId)
    ensures var (t', result) := Expected(w, t, sys, UnassignFromProject(actor, project, target, r), 0, 0);
      UnassignFromProjectAnswered(w, t, sys, actor, project, target, r, t', result)
  {
    RoleIsHeldInProject(w, t, sys, actor, project, r);
  }

  lemma AssignToOrgIsAnswered(w: World, t: Tables, sys: Assignments, actor: UUID, project: ProjectId, target: UUID,
                              r: RoleId)
    ensures var (t', result) := Expected(w, t, sys, AssignToOrg(actor, project, target, r), 0, 0);
      AssignToOrgAnswered(w, t, sys, actor, project, target, r, t', result)
  {
    if project in w.projects { RoleIsHeldInOrg(w, t, sys, actor, w.projects[project], r); }
  }

  lemma UnassignFromOrgIsAnswered(w: World, t: Tables, sys: Assignments, actor: UUID, project: ProjectId, target: UUID,
                                  r: RoleId)
    ensures var (t', result) := Expected(w, t, sys, UnassignFromOrg(actor, project, target, r), 0, 0);
      UnassignFromOrgAnswered(w, t, sys, actor, project, target, r, t', result)
  {
    if project in w.projects { RoleIsHeldInOrg(w, t, sys, actor, w.projects[project], r); }
  }
}
