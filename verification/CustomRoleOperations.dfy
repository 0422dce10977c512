/** core/rbac/custom_role.go: each operation's own steps, proved to do what CustomRoleSpec says. The
    advisory lock of the role changes nothing for a call that runs alone; see CustomRoleProtocol. */
module CustomRoleOperations {
  import opened Permissions
  import opened SystemRoles
  import opened CustomRoleTables
  import opened CustomRoleProtocol
  import opened CustomRoleSpec
  import opened CustomRoleCore
  import CustomRoleAnswers
  import opened Sets

  lemma HeldIsRegistered(w: World, t: Tables, sys: Assignments, u: UUID, project: ProjectId)
    requires Consistent(w, t) && project in w.projects
    ensures OrgPermissions(w, t, sys, u, w.projects[project]) <= w.env.registry
    ensures ProjectPermissions(w, t, sys, u, project) <= w.env.registry
  {
  }

  lemma RoleIsRegistered(w: World, t: Tables, r: RoleId)
    requires Consistent(w, t)
    ensures RolePermissions(t, r) <= w.env.registry
  {
  }

  lemma ChangedIs(curr: seq<Permission>, next: seq<Permission>, changed: seq<Permission>)
    requires forall p :: p in changed <==> (p in curr) != (p in next)
    ensures ToSet(changed) == Changed(ToSet(curr), ToSet(next))
  {
  }

  lemma RegisteredHasScope(w: World, ps: set<Permission>)
    requires w.env.registry <= ToSet(AllPermissions()) && ps <= w.env.registry
    ensures forall p :: p in ps ==> PermissionAssignmentScope(p).Some?
  {
    forall p | p in ps ensures PermissionAssignmentScope(p).Some? {
      assert p in ToSet(AllPermissions());
      PanicsExactlyOutsideRegistry(p);
    }
  }

  /** A name that passes Validate also passes the CHECK constraint of the table. */
  lemma ValidNamePassesCheck(name: string)
    requires ValidName(name)
    ensures NameCheck(name)
  {
  }

  lemma CreateAddsRole(w: World, t: Tables, org: OrgId, name: string, perms: set<Permission>, id: RoleId, etag: ETag)
    requires id !in t.roles
    requires CreateStatement(w, t, org, name, false, perms, id, etag).error.None?
    ensures Apply(t, CreateStatement(w, t, org, name, false, perms, id, etag).delta)
         == t.(roles := t.roles[id := Role(org, name, false, etag)], rolePerms := t.rolePerms + RowsOf(id, perms))
  {
    var t' := Apply(t, CreateStatement(w, t, org, name, false, perms, id, etag).delta);
    assert t'.roles == t.roles[id := Role(org, name, false, etag)];
  }

  /** The checks of a permission edit that come before the statement. */
  function EditChecks(t: Tables, held: set<Permission>, r: RoleId, wanted: set<Permission>): Outcome
    requires r in t.roles
  {
    if t.roles[r].managed then Failure(Managed)
    else if !(Changed(RolePermissions(t, r), wanted) <= held) then Failure(Denied)
    else if !ProjectScoped(wanted) && HasProjectAssignments(t, r) then Failure(WrongScope)
    else Success
  }

  method ValidateCustomRolePerms(perms: seq<Permission>) returns (ok: bool)
    ensures ok <==> ValidCustomRolePermissions(ToSet(perms))
  {
    for i := 0 to |perms|
      invariant ValidCustomRolePermissions(ToSet(perms[..i]))
    {
      if perms[i] in SystemOnlyPermissions() {
        assert perms[i] in ToSet(perms);
        return false;
      }
      assert perms[..i + 1] == perms[..i] + [perms[i]];
    }
    assert perms[..|perms|] == perms;
    return true;
  }

  class Core {
    const store: Store

    ghost predicate Valid() reads this, store {
      Consistent(store.w, store.View()) && store.Idle()
    }

    constructor (store: Store)
      ensures this.store == store
    {
      this.store := store;
    }

    /** OrgPermissionsByProjectID: no row without the user or the project. The names are those that some
        assignment in the organization or some system role brings. */
    method OrgPermissionsByProjectID(actor: UUID, project: ProjectId)
        returns (org: Option<OrgId>, names: seq<Permission>)
      ensures org == if actor in store.w.env.users && project in store.w.projects then Some(store.w.projects[project])
        else None
      ensures org.Some? ==> ToSet(names) == OrgPermissions(store.w, store.View(), store.sys, actor, org.value)
      ensures org.Some? ==> forall p :: p in names <==>
        || (exists a :: a in store.orgAssignments && a.user == actor && a.org == org.value
              && (a.role, p) in store.rolePerms)
        || (exists x :: x in store.sys && x.0 == actor && x.1 in store.w.env.roles && p in store.w.env.roles[x.1])
    {
      if actor !in store.w.env.users || project !in store.w.projects { return None, []; }
      org := Some(store.w.projects[project]);
      names := PermissionNames(OrgPermissions(store.w, store.View(), store.sys, actor, org.value));
      OrgPermissionsAre(store.w, store.View(), store.sys, actor, org.value);
      assert forall p :: p in names <==> p in ToSet(names);
    }

    /** The same with the assignments in this very project. */
    method ProjectPermissionNames(actor: UUID, project: ProjectId) returns (org: Option<OrgId>, names: seq<Permission>)
      ensures org == if actor in store.w.env.users && project in store.w.projects then Some(store.w.projects[project])
        else None
      ensures org.Some? ==> ToSet(names) == ProjectPermissions(store.w, store.View(), store.sys, actor, project)
      ensures org.Some? ==> forall p :: p in names <==>
        || (exists a :: a in store.projectAssignments && a.user == actor && a.project == project
              && (a.role, p) in store.rolePerms)
        || (exists a :: a in store.orgAssignments && a.user == actor && a.org == org.value
              && (a.role, p) in store.rolePerms)
        || (exists x :: x in store.sys && x.0 == actor && x.1 in store.w.env.roles && p in store.w.env.roles[x.1])
    {
      if actor !in store.w.env.users || project !in store.w.projects { return None, []; }
      org := Some(store.w.projects[project]);
      names := PermissionNames(ProjectPermissions(store.w, store.View(), store.sys, actor, project));
      ProjectPermissionsAre(store.w, store.View(), store.sys, actor, project);
      assert forall p :: p in names <==> p in ToSet(names);
    }

    method CustomRoleByExternalID(org: OrgId, r: RoleId) returns (role: Option<Role>, names: seq<Permission>)
      ensures role == if Owns(store.View(), org, r) then Some(store.roles[r]) else None
      ensures role.Some? ==> ToSet(names) == RolePermissions(store.View(), r)
    {
      if !Owns(store.View(), org, r) { return None, []; }
      role := Some(store.roles[r]);
      names := PermissionNames(RolePermissions(store.View(), r));
    }

    method ValidateCustomRoleAssignmentScope(r: RoleId, perms: seq<Permission>) returns (ok: bool)
      requires store.w.env.registry <= ToSet(AllPermissions()) && ToSet(perms) <= store.w.env.registry
      ensures ok == (ProjectScoped(ToSet(perms)) || !HasProjectAssignments(store.View(), r))
    {
      RegisteredHasScope(store.w, ToSet(perms));
      var scope := MinimumAssignmentScope(perms);
      ScopeAboveProject(ToSet(perms), scope.value);
      if scope.value == SCOPE_PROJECT { return true; }
      return !HasProjectAssignments(store.View(), r);
    }

    /** What UpdateCustomRole and ModifyCustomRolePermissions test between reading the role and writing it. */
    method CheckEdit(userPerms: seq<Permission>, r: RoleId, managed: bool, current: seq<Permission>,
                     next: seq<Permission>)
      returns (result: Outcome)
      requires Valid() && r in store.roles && managed == store.roles[r].managed
      requires ToSet(current) == RolePermissions(store.View(), r) && ToSet(userPerms) <= store.w.env.registry
      ensures result == EditChecks(store.View(), ToSet(userPerms), r, ToSet(next))
      ensures result == Success ==> ToSet(next) <= store.w.env.registry
    {
      if managed { return Failure(CoreError.Managed); }
      var changed := ChangedPerms(current, next);
      ChangedIs(current, next, changed);
      var permitted := IsPermissionSuperset(userPerms, changed);
      if !permitted { return Failure(CoreError.Denied); }
      RoleIsRegistered(store.w, store.View(), r);
      var scoped := ValidateCustomRoleAssignmentScope(r, next);
      if !scoped { return Failure(CoreError.WrongScope); }
      return Success;
    }

    method CreateCustomRole(actor: UUID, project: ProjectId, name: string, perms: seq<Permission>, newRole: RoleId,
                            newETag: ETag)
      returns (r: Outcome)
      requires Valid() && newRole !in store.roles
      modifies store
      ensures Valid() && store.sys == old(store.sys)
      ensures (store.View(), r) ==
        Expected(store.w, old(store.View()), store.sys, Create(actor, project, name, ToSet(perms)), newRole, newETag)
      ensures CustomRoleAnswers.CreateAnswered(store.w, old(store.View()), store.sys, actor, project, name,
        ToSet(perms), newRole, newETag, store.View(), r)
    {
      CustomRoleAnswers.CreateIsAnswered(store.w, store.View(), store.sys, actor, project, name, ToSet(perms), newRole,
                                         newETag);
      var req := Create(actor, project, name, ToSet(perms));
      var ok := ValidateCustomRolePerms(perms);
      if !ValidName(name) || !ok { return Failure(CoreError.Validation); }
      ValidNamePassesCheck(name);
      var org, userPerms := OrgPermissionsByProjectID(actor, project);
      if org.None? { return Failure(CoreError.Missing); }
      var permitted := IsPermissionSuperset(userPerms, perms);
      if !permitted { return Failure(CoreError.Denied); }
      HeldIsRegistered(store.w, store.View(), store.sys, actor, project);
      ghost var t := store.View();
      var e := store.Write(CreateStatement(store.w, store.View(), org.value, name, false, ToSet(perms), newRole,
                                           newETag));
      if e.Some? { return Failure(CoreErrorOf(req, e.value)); }
      CreateAddsRole(store.w, t, org.value, name, ToSet(perms), newRole, newETag);
      return Success;
    }

    /** UpdateCustomRole with permissions among the fields. */
    method UpdateCustomRole(actor: UUID, project: ProjectId, r: RoleId, etag: ETag, newName: Option<string>,
                            perms: seq<Permission>, newETag: ETag) returns (result: Outcome)
      requires Valid()
      modifies store
      ensures Valid() && store.sys == old(store.sys)
      ensures (store.View(), result) ==
        Expected(store.w, old(store.View()), store.sys, Update(actor, project, r, etag, newName, ToSet(perms)), 0,
                 newETag)
      ensures CustomRoleAnswers.UpdateAnswered(store.w, old(store.View()), store.sys, actor, project, r, etag, newName,
        ToSet(perms), newETag, store.View(), result)
    {
      CustomRoleAnswers.UpdateIsAnswered(store.w, store.View(), store.sys, actor, project, r, etag, newName,
                                         ToSet(perms), newETag);
      var req := Update(actor, project, r, etag, newName, ToSet(perms));
      var ok := ValidateCustomRolePerms(perms);
      if etag == 0 || (newName.Some? && !ValidName(newName.value)) || !ok { return Failure(CoreError.Validation); }
      var org, userPerms := OrgPermissionsByProjectID(actor, project);
      if org.None? { return Failure(CoreError.Missing); }
      var role, current := CustomRoleByExternalID(org.value, r);
      if role.None? { return Failure(CoreError.Missing); }
      HeldIsRegistered(store.w, store.View(), store.sys, actor, project);
      var checked := CheckEdit(userPerms, r, role.value.managed, current, perms);
      if checked != Success { return checked; }
      if newName.Some? { ValidNamePassesCheck(newName.value); }
      var e := store.UpdateCustomRole(org.value, r, etag, newName, Some(ToSet(perms)), newETag);
      if e.Some? { return Failure(CoreErrorOf(req, e.value)); }
      return Success;
    }

    /** UpdateCustomRole without permissions: no transaction of its own, no lock, no permission test. */
    method RenameCustomRole(org: OrgId, r: RoleId, etag: ETag, newName: Option<string>, newETag: ETag)
        returns (result: Outcome)
      requires Valid()
      modifies store
      ensures Valid() && store.sys == old(store.sys)
      ensures (store.View(), result) ==
        Expected(store.w, old(store.View()), store.sys, Rename(org, r, etag, newName), 0, newETag)
      ensures CustomRoleAnswers.RenameAnswered(old(store.View()), org, r, etag, newName, newETag, store.View(), result)
    {
      CustomRoleAnswers.RenameIsAnswered(store.w, store.View(), store.sys, org, r, etag, newName, newETag);
      var req := Rename(org, r, etag, newName);
      if etag == 0 || (newName.Some? && !ValidName(newName.value)) { return Failure(CoreError.Validation); }
      if newName.Some? { ValidNamePassesCheck(newName.value); }
      var e := store.UpdateCustomRole(org, r, etag, newName, None, newETag);
      if e.Some? { return Failure(CoreErrorOf(req, e.value)); }
      return Success;
    }

    method ModifyCustomRolePermissions(actor: UUID, project: ProjectId, r: RoleId, etag: ETag,
                                       add: seq<Permission>, remove: seq<Permission>, newETag: ETag)
      returns (result: Outcome)
      requires Valid()
      modifies store
      ensures Valid() && store.sys == old(store.sys)
      ensures (store.View(), result) ==
        Expected(store.w, old(store.View()), store.sys, Modify(actor, project, r, etag, ToSet(add), ToSet(remove)), 0,
                 newETag)
      ensures CustomRoleAnswers.ModifyAnswered(store.w, old(store.View()), store.sys, actor, project, r, etag,
        ToSet(add), ToSet(remove), newETag, store.View(), result)
    {
      CustomRoleAnswers.ModifyIsAnswered(store.w, store.View(), store.sys, actor, project, r, etag, ToSet(add),
                                         ToSet(remove), newETag);
      var req := Modify(actor, project, r, etag, ToSet(add), ToSet(remove));
      var overlap := Overlaps(add, remove);
      var ok := ValidateCustomRolePerms(add + remove);
      assert ToSet(add + remove) == ToSet(add) + ToSet(remove);
      if etag == 0 || overlap || !ok { return Failure(CoreError.Validation); }
      var org, userPerms := OrgPermissionsByProjectID(actor, project);
      if org.None? { return Failure(CoreError.Missing); }
      var role, current := CustomRoleByExternalID(org.value, r);
      if role.None? { return Failure(CoreError.Missing); }
      var next := NextPermissions(current, add, remove);
      HeldIsRegistered(store.w, store.View(), store.sys, actor, project);
      var checked := CheckEdit(userPerms, r, role.value.managed, current, next);
      if checked != Success { return checked; }
      var e := store.ModifyCustomRolePermissions(org.value, r, etag, ToSet(add), ToSet(remove), newETag);
      if e.Some? { return Failure(CoreErrorOf(req, e.value)); }
      return Success;
    }

    method DeleteCustomRole(actor: UUID, project: ProjectId, r: RoleId) returns (result: Outcome)
      requires Valid()
      modifies store
      ensures Valid() && store.sys == old(store.sys)
      ensures (store.View(), result) == Expected(store.w, old(store.View()), store.sys, Delete(actor, project, r), 0, 0)
      ensures CustomRoleAnswers.DeleteAnswered(store.w, old(store.View()), store.sys, actor, project, r,
        store.View(), result)
    {
      CustomRoleAnswers.DeleteIsAnswered(store.w, store.View(), store.sys, actor, project, r);
      var org, userPerms := OrgPermissionsByProjectID(actor, project);
      if org.None? { return Failure(CoreError.Missing); }
      var role, current := CustomRoleByExternalID(org.value, r);
      if role.None? { return Failure(CoreError.Missing); }
      if role.value.managed { return Failure(CoreError.Managed); }
      var permitted := IsPermissionSuperset(userPerms, current);
      if !permitted { return Failure(CoreError.Denied); }
      var e := store.DeleteCustomRole(org.value, r);
      if e.Some? { assert false; }
      return Success;
    }

    method AssignCustomRoleToProject(actor: UUID, project: ProjectId, target: UUID, r: RoleId) returns (result: Outcome)
      requires Valid()
      modifies store
      ensures Valid() && store.sys == old(store.sys)
      ensures (store.View(), result) ==
        Expected(store.w, old(store.View()), store.sys, AssignToProject(actor, project, target, r), 0, 0)
      ensures CustomRoleAnswers.AssignToProjectAnswered(store.w, old(store.View()), store.sys, actor, project,
        target, r, store.View(), result)
    {
      CustomRoleAnswers.AssignToProjectIsAnswered(store.w, store.View(), store.sys, actor, project, target, r);
      var req := AssignToProject(actor, project, target, r);
      var org, userPerms := ProjectPermissionNames(actor, project);
      if org.None? { return Failure(CoreError.Missing); }
      var role, current := CustomRoleByExternalID(org.value, r);
      if role.None? { return Failure(CoreError.Missing); }
      RoleIsRegistered(store.w, store.View(), r);
      RegisteredHasScope(store.w, ToSet(current));
      var scope := MinimumAssignmentScope(current);
      ScopeAboveProject(ToSet(current), scope.value);
      if scope.value > SCOPE_PROJECT { return Failure(CoreError.WrongScope); }
      var permitted := IsPermissionSuperset(userPerms, current);
      if !permitted { return Failure(CoreError.Denied); }
      var e := store.AssignCustomRoleToProject(target, r, project);
      if e.Some? { return Failure(CoreErrorOf(req, e.value)); }
      return Success;
    }

    method UnassignCustomRoleFromProject(actor: UUID, project: ProjectId, target: UUID, r: RoleId)
        returns (result: Outcome)
      requires Valid()
      modifies store
      ensures Valid() && store.sys == old(store.sys)
      ensures (store.View(), result) ==
        Expected(store.w, old(store.View()), store.sys, UnassignFromProject(actor, project, target, r), 0, 0)
      ensures CustomRoleAnswers.UnassignFromProjectAnswered(store.w, old(store.View()), store.sys, actor, project,
        target, r, store.View(), result)
    {
      CustomRoleAnswers.UnassignFromProjectIsAnswered(store.w, store.View(), store.sys, actor, project, target, r);
      var req := UnassignFromProject(actor, project, target, r);
      var org, userPerms := ProjectPermissionNames(actor, project);
      if org.None? { return Failure(CoreError.Missing); }
      var role, current := CustomRoleByExternalID(org.value, r);
      if role.None? { return Failure(CoreError.Missing); }
      var permitted := IsPermissionSuperset(userPerms, current);
      if !permitted { return Failure(CoreError.Denied); }
      var e := store.UnassignCustomRoleFromProject(target, r, project);
      if e.Some? { return Failure(CoreErrorOf(req, e.value)); }
      return Success;
    }

    method AssignCustomRoleToOrg(actor: UUID, project: ProjectId, target: UUID, r: RoleId) returns (result: Outcome)
      requires Valid()
      modifies store
      ensures Valid() && store.sys == old(store.sys)
      ensures (store.View(), result) ==
        Expected(store.w, old(store.View()), store.sys, AssignToOrg(actor, project, target, r), 0, 0)
      ensures CustomRoleAnswers.AssignToOrgAnswered(store.w, old(store.View()), store.sys, actor, project,
        target, r, store.View(), result)
    {
      CustomRoleAnswers.AssignToOrgIsAnswered(store.w, store.View(), store.sys, actor, project, target, r);
      var req := AssignToOrg(actor, project, target, r);
      var org, userPerms := OrgPermissionsByProjectID(actor, project);
      if org.None? { return Failure(CoreError.Missing); }
      var role, current := CustomRoleByExternalID(org.value, r);
      if role.None? { return Failure(CoreError.Missing); }
      var permitted := IsPermissionSuperset(userPerms, current);
      if !permitted { return Failure(CoreError.Denied); }
      var e := store.AssignCustomRoleToOrg(target, r, org.value);
      if e.Some? { return Failure(CoreErrorOf(req, e.value)); }
      return Success;
    }

    method UnassignCustomRoleFromOrg(actor: UUID, project: ProjectId, target: UUID, r: RoleId) returns (result: Outcome)
      requires Valid()
      modifies store
      ensures Valid() && store.sys == old(store.sys)
      ensures (store.View(), result) ==
        Expected(store.w, old(store.View()), store.sys, UnassignFromOrg(actor, project, target, r), 0, 0)
      ensures CustomRoleAnswers.UnassignFromOrgAnswered(store.w, old(store.View()), store.sys, actor, project,
        target, r, store.View(), result)
    {
      CustomRoleAnswers.UnassignFromOrgIsAnswered(store.w, store.View(), store.sys, actor, project, target, r);
      var req := UnassignFromOrg(actor, project, target, r);
      var org, userPerms := OrgPermissionsByProjectID(actor, project);
      if org.None? { return Failure(CoreError.Missing); }
      var role, current := CustomRoleByExternalID(org.value, r);
      if role.None? { return Failure(CoreError.Missing); }
      var permitted := IsPermissionSuperset(userPerms, current);
      if !permitted { return Failure(CoreError.Denied); }
      var e := store.UnassignCustomRoleFromOrg(target, r, org.value);
      if e.Some? { return Failure(CoreErrorOf(req, e.value)); }
      return Success;
    }
  }
}
