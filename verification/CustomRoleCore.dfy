/** pgrbac/store_custom_role.go and core/rbac/custom_role.go, one call at a time: the statements in the
    order the code sends them, on tables that a failed transaction restores. */
module CustomRoleCore {
  import opened Permissions
  import opened SystemRoles
  import opened CustomRoleTables
  import opened CustomRoleProtocol
  import opened CustomRoleSpec
  import opened Sets

  /** The four role tables as the open transaction sees them, and as they were last committed. */
  class Store {
    const w: World
    var sys: Assignments
    var roles: map<RoleId, Role>
    var rolePerms: set<(RoleId, Permission)>
    var projectAssignments: set<ProjectAssignment>
    var orgAssignments: set<OrgAssignment>
    var committed: Tables

    function View(): Tables reads this { Tables(roles, rolePerms, projectAssignments, orgAssignments) }

    ghost predicate Idle() reads this { committed == View() }

    constructor (w: World, sys: Assignments, t: Tables)
      ensures this.w == w && this.sys == sys && View() == t && Idle()
    {
      this.w, this.sys := w, sys;
      roles, rolePerms := t.roles, t.rolePerms;
      projectAssignments, orgAssignments := t.projectAssignments, t.orgAssignments;
      committed := t;
    }

    method Execute(stmt: Statement) returns (error: Option<DbError>)
      modifies this`roles, this`rolePerms, this`projectAssignments, this`orgAssignments
      ensures View() == Apply(old(View()), stmt.delta) && error == stmt.error
    {
      var t := View();
      roles := map r | r in roles.Keys + stmt.delta.rows.Keys && RowAfter(t, stmt.delta, r).Some? ::
        RowAfter(t, stmt.delta, r).value;
      rolePerms := rolePerms - stmt.delta.permDel + stmt.delta.permIns;
      projectAssignments := projectAssignments - stmt.delta.projectDel + stmt.delta.projectIns;
      orgAssignments := orgAssignments - stmt.delta.orgDel + stmt.delta.orgIns;
      return stmt.error;
    }

    method Commit()
      modifies this`committed
      ensures Idle()
    {
      committed := View();
    }

    method Rollback()
      modifies this`roles, this`rolePerms, this`projectAssignments, this`orgAssignments
      ensures View() == committed
    {
      roles, rolePerms := committed.roles, committed.rolePerms;
      projectAssignments, orgAssignments := committed.projectAssignments, committed.orgAssignments;
    }

    /** The end of RunBatchTx: the first error of the batch rolls everything back. */
    method Close(error: Option<DbError>)
      modifies this
      ensures Idle() && View() == (if error.Some? then old(committed) else old(View()))
      ensures sys == old(sys)
    {
      if error.Some? { Rollback(); } else { Commit(); }
    }

    /** One statement and the end of its transaction. */
    method Write(stmt: Statement) returns (error: Option<DbError>)
      requires Idle()
      modifies this
      ensures Idle() && sys == old(sys)
      ensures error == stmt.error && View() == (if error.None? then Apply(old(View()), stmt.delta) else old(View()))
    {
      error := Execute(stmt);
      Close(error);
    }

    /** The two statements queued behind the guarded update. */
    method ReplacePermissions(org: OrgId, r: RoleId, perms: set<Permission>) returns (error: Option<DbError>)
      modifies this`roles, this`rolePerms, this`projectAssignments, this`orgAssignments
      ensures var t := old(View());
        Owns(t, org, r) && perms <= w.env.registry ==> error.None? && View() == Replaced(t, r, t.roles[r], perms)
    {
      if Owns(View(), org, r) && perms <= w.env.registry { ReplacementIsUnguarded(w, View(), org, r, perms); }
      error := Execute(DeletePermissionsStatement(View(), org, r));
      error := Execute(InsertPermissionsStatement(w, View(), r, perms));
    }

    /** The guarded update, then the unguarded replacement of the permission rows. A missing or stale
        row is only found when the results are read, after the whole batch has been executed. */
    method UpdateCustomRole(org: OrgId, r: RoleId, etag: ETag, name: Option<string>, perms: Option<set<Permission>>,
                            newETag: ETag)
      returns (error: Option<DbError>)
      requires Idle()
      modifies this
      ensures Idle() && sys == old(sys)
      ensures error == UpdateStatement(w, old(View()), old(View()), org, r, etag, name, perms, newETag).error
      ensures error.Some? ==> View() == old(View())
      ensures error.None? ==>
        var t, row := old(View()), old(roles[r]);
        View() == Replaced(t, r, row.(name := if name.Some? then name.value else row.name, etag := newETag),
                           if perms.Some? then perms.value else RolePermissions(t, r))
    {
      ghost var t := View();
      error := Execute(UpdateStatement(w, View(), View(), org, r, etag, name, perms, newETag));
      if error.None? { RowUpdated(t, View(), r, name, newETag); }
      if perms.Some? && error != Some(UniqueViolation) && error != Some(CheckViolation) {
        var replaced := ReplacePermissions(org, r, perms.value);
        if error.None? { error := replaced; }
      }
      Close(error);
    }

    /** One statement: the role's permissions become (current + add) - remove, and its ETag is renewed exactly
        when that is a change. */
    method ModifyCustomRolePermissions(org: OrgId, r: RoleId, etag: ETag, add: set<Permission>,
                                       remove: set<Permission>, newETag: ETag)
      returns (error: Option<DbError>)
      requires Idle() && add !! remove
      modifies this
      ensures Idle() && sys == old(sys)
      ensures error == if !(add + remove <= w.env.registry) || !Owns(old(View()), org, r) then Some(NoRows)
                       else if old(roles[r]).etag != etag then Some(ETagMismatch) else None
      ensures View() == if error.Some? then old(View())
        else var current := RolePermissions(old(View()), r);
             var next := (current + add) - remove;
             Replaced(old(View()), r, old(roles[r]).(etag := if next == current then etag else newETag), next)
    {
      if Owns(View(), org, r) && roles[r].etag == etag && add + remove <= w.env.registry {
        ModifyIsReplacement(w, View(), org, r, etag, add, remove, newETag);
      }
      error := Write(ModifyStatement(w, View(), org, r, etag, add, remove, newETag));
    }

    /** The row is added exactly when it was missing and the target belongs to the organization that has both the
        project and the role. */
    method AssignCustomRoleToProject(target: UUID, r: RoleId, project: ProjectId) returns (error: Option<DbError>)
      requires Idle()
      modifies this
      ensures Idle() && sys == old(sys)
      ensures error == Some(NoRows) <==> !(&& target in w.env.users && project in w.projects && r in old(roles)
                                           && old(roles)[r].org == w.projects[project]
                                           && (target, w.projects[project]) in w.members)
      ensures error.Some? && error != Some(NoRows) ==>
        error == Some(UniqueViolation) && ProjectAssignment(target, project, r) in old(projectAssignments)
      ensures error.None? ==> ProjectAssignment(target, project, r) !in old(projectAssignments)
      ensures View() == if error.Some? then old(View()) else
        old(View()).(projectAssignments := old(projectAssignments) + {ProjectAssignment(target, project, r)})
    {
      AssignmentRowsOnly(View(), ProjectAssignment(target, project, r), OrgAssignment(target, 0, r));
      error := Write(AssignToProjectStatement(w, View(), View(), target, r, project));
    }

    /** The row is removed exactly when it was there, under the same condition. */
    method UnassignCustomRoleFromProject(target: UUID, r: RoleId, project: ProjectId) returns (error: Option<DbError>)
      requires Idle()
      modifies this
      ensures Idle() && sys == old(sys)
      ensures error == if && target in w.env.users && project in w.projects && r in old(roles)
                          && old(roles)[r].org == w.projects[project] && (target, w.projects[project]) in w.members
                          && ProjectAssignment(target, project, r) in old(projectAssignments)
                       then None else Some(NoRows)
      ensures View() == if error.Some? then old(View()) else
        old(View()).(projectAssignments := old(projectAssignments) - {ProjectAssignment(target, project, r)})
    {
      AssignmentRowsOnly(View(), ProjectAssignment(target, project, r), OrgAssignment(target, 0, r));
      error := Write(UnassignFromProjectStatement(w, View(), target, r, project));
    }

    /** The row is added exactly when it was missing and the target belongs to the organization that has the
        role. */
    method AssignCustomRoleToOrg(target: UUID, r: RoleId, org: OrgId) returns (error: Option<DbError>)
      requires Idle()
      modifies this
      ensures Idle() && sys == old(sys)
      ensures error == Some(NoRows) <==> !(&& target in w.env.users && (target, org) in w.members && r in old(roles)
                                           && old(roles)[r].org == org)
      ensures error.Some? && error != Some(NoRows) ==>
        error == Some(UniqueViolation) && OrgAssignment(target, org, r) in old(orgAssignments)
      ensures error.None? ==> OrgAssignment(target, org, r) !in old(orgAssignments)
      ensures View() == if error.Some? then old(View()) else
        old(View()).(orgAssignments := old(orgAssignments) + {OrgAssignment(target, org, r)})
    {
      AssignmentRowsOnly(View(), ProjectAssignment(target, 0, r), OrgAssignment(target, org, r));
      error := Write(AssignToOrgStatement(w, View(), View(), target, r, org));
    }

    /** The row is removed exactly when it was there, under the same condition. */
    method UnassignCustomRoleFromOrg(target: UUID, r: RoleId, org: OrgId) returns (error: Option<DbError>)
      requires Idle()
      modifies this
      ensures Idle() && sys == old(sys)
      ensures error == if && target in w.env.users && (target, org) in w.members && r in old(roles)
                          && old(roles)[r].org == org && OrgAssignment(target, org, r) in old(orgAssignments)
                       then None else Some(NoRows)
      ensures View() == if error.Some? then old(View()) else
        old(View()).(orgAssignments := old(orgAssignments) - {OrgAssignment(target, org, r)})
    {
      AssignmentRowsOnly(View(), ProjectAssignment(target, 0, r), OrgAssignment(target, org, r));
      error := Write(UnassignFromOrgStatement(w, View(), target, r, org));
    }

    method DeleteCustomRole(org: OrgId, r: RoleId) returns (error: Option<DbError>)
      requires Idle()
      modifies this
      ensures Idle() && sys == old(sys)
      ensures error == if Owns(old(View()), org, r) then None else Some(NoRows)
      ensures View() == if error.None? then Removed(old(View()), r) else old(View())
    {
      if Owns(View(), org, r) { DeletesRemove(View(), org, r); }
      var e := Execute(DeleteProjectAssignmentsStatement(View(), org, r));
      e := Execute(DeleteOrgAssignmentsStatement(View(), org, r));
      e := Execute(DeletePermissionsStatement(View(), org, r));
      error := Execute(DeleteRoleStatement(View(), org, r));
      Close(error);
    }
  }

  /** The delete and insert queued behind the guarded update replace the permissions of any role the
      organization owns, whatever its ETag: only the rollback of the batch undoes them. */
  lemma ReplacementIsUnguarded(w: World, t: Tables, org: OrgId, r: RoleId, perms: set<Permission>)
    requires Owns(t, org, r) && perms <= w.env.registry
    ensures var t2 := Apply(t, DeletePermissionsStatement(t, org, r).delta);
      var insert := InsertPermissionsStatement(w, t2, r, perms);
      insert.error.None? && Apply(t2, insert.delta) == Replaced(t, r, t.roles[r], perms)
  {
    var d := DeletePermissionsStatement(t, org, r).delta;
    var t2 := Apply(t, d);
    PermissionsAfter(t, d, r);
    assert RolePermissions(t2, r) == {};
    var d2 := InsertPermissionsStatement(w, t2, r, perms).delta;
    ReplacedRows(t2, d2, r, perms);
    assert t2.roles == t.roles && Apply(t2, d2).roles == t.roles;
    assert forall x: (RoleId, Permission) :: x.0 != r ==> (x in t.rolePerms <==> x in t2.rolePerms);
  }

  /** The four deletes take the role out of every table, and nothing else. */
  lemma DeletesRemove(t: Tables, org: OrgId, r: RoleId)
    requires Owns(t, org, r)
    ensures var t1 := Apply(t, DeleteProjectAssignmentsStatement(t, org, r).delta);
      var t2 := Apply(t1, DeleteOrgAssignmentsStatement(t1, org, r).delta);
      var t3 := Apply(t2, DeletePermissionsStatement(t2, org, r).delta);
      Owns(t3, org, r) && Apply(t3, DeleteRoleStatement(t3, org, r).delta) == Removed(t, r)
  {
    var t1 := Apply(t, DeleteProjectAssignmentsStatement(t, org, r).delta);
    assert t1 == t.(projectAssignments := set a | a in t.projectAssignments && a.role != r);
    var t2 := Apply(t1, DeleteOrgAssignmentsStatement(t1, org, r).delta);
    assert t2 == t1.(orgAssignments := set a | a in t.orgAssignments && a.role != r);
    var d := DeletePermissionsStatement(t2, org, r).delta;
    ReplacedRows(t2, d, r, {});
    assert Apply(t2, d) == t2.(rolePerms := set x | x in t.rolePerms && x.0 != r);
  }

  lemma AssignmentRowsOnly(t: Tables, a: ProjectAssignment, b: OrgAssignment)
    ensures Apply(t, NO_CHANGE.(projectIns := {a})) == t.(projectAssignments := t.projectAssignments + {a})
    ensures Apply(t, NO_CHANGE.(projectDel := {a})) == t.(projectAssignments := t.projectAssignments - {a})
    ensures Apply(t, NO_CHANGE.(orgIns := {b})) == t.(orgAssignments := t.orgAssignments + {b})
    ensures Apply(t, NO_CHANGE.(orgDel := {b})) == t.(orgAssignments := t.orgAssignments - {b})
  {
    var t1, t2 := Apply(t, NO_CHANGE.(projectIns := {a})), Apply(t, NO_CHANGE.(projectDel := {a}));
    var t3, t4 := Apply(t, NO_CHANGE.(orgIns := {b})), Apply(t, NO_CHANGE.(orgDel := {b}));
    assert t1.roles == t.roles && t2.roles == t.roles && t3.roles == t.roles && t4.roles == t.roles;
  }

  lemma RowUpdated(t: Tables, t': Tables, r: RoleId, name: Option<string>, newETag: ETag)
    requires r in t.roles && t' == Apply(t, NO_CHANGE.(rows := map[r := UpdateRow(name, newETag)]))
    ensures var row := t.roles[r].(name := if name.Some? then name.value else t.roles[r].name, etag := newETag);
      t' == Replaced(t, r, row, RolePermissions(t, r))
  {
    ReplacedRows(t, NO_CHANGE.(rows := map[r := UpdateRow(name, newETag)]), r, RolePermissions(t, r));
  }
}
