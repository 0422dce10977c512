/** What the effective permissions of a user depend on, and what one assignment row adds to them. */
module CustomRoleRights {
  import opened Permissions
  import opened SystemRoles
  import opened CustomRoleTables

  /** The user's own assignments in the organization, and what the assigned roles carry, are the same. */
  ghost predicate SameInOrg(t: Tables, t': Tables, u: UUID, org: OrgId) {
    && (forall r: RoleId :: OrgAssignment(u, org, r) in t.orgAssignments <==>
                            OrgAssignment(u, org, r) in t'.orgAssignments)
    && (forall r: RoleId, p :: OrgAssignment(u, org, r) in t.orgAssignments ==>
          ((r, p) in t.rolePerms <==> (r, p) in t'.rolePerms))
  }

  ghost predicate SameInProject(t: Tables, t': Tables, u: UUID, project: ProjectId) {
    && (forall r: RoleId :: ProjectAssignment(u, project, r) in t.projectAssignments <==>
                            ProjectAssignment(u, project, r) in t'.projectAssignments)
    && (forall r: RoleId, p :: ProjectAssignment(u, project, r) in t.projectAssignments ==>
          ((r, p) in t.rolePerms <==> (r, p) in t'.rolePerms))
  }

  ghost predicate SameSystemRoles(sys: Assignments, sys': Assignments, u: UUID) {
    forall name: string :: (u, name) in sys <==> (u, name) in sys'
  }

  lemma HoldingInOrgIsLocal(w: World, t: Tables, t': Tables, sys: Assignments, sys': Assignments, u: UUID, org: OrgId,
                            p: Permission)
    requires SameInOrg(t, t', u, org) && SameSystemRoles(sys, sys', u) && HoldsInOrg(w, t, sys, u, org, p)
    ensures HoldsInOrg(w, t', sys', u, org, p)
  {
    if a :| a in t.orgAssignments && a.user == u && a.org == org && (a.role, p) in t.rolePerms {
      assert a == OrgAssignment(u, org, a.role) && a in t'.orgAssignments;
    } else {
      var x :| x in sys && x.0 == u && x.1 in w.env.roles && p in w.env.roles[x.1];
      assert x == (u, x.1) && x in sys';
    }
  }

  lemma HoldingInProjectIsLocal(w: World, t: Tables, t': Tables, sys: Assignments, sys': Assignments, u: UUID,
                                project: ProjectId, p: Permission)
    requires SameInProject(t, t', u, project) && project in w.projects && SameInOrg(t, t', u, w.projects[project])
    requires SameSystemRoles(sys, sys', u) && HoldsInProject(w, t, sys, u, project, p)
    ensures HoldsInProject(w, t', sys', u, project, p)
  {
    if a :| a in t.projectAssignments && a.user == u && a.project == project && (a.role, p) in t.rolePerms {
      assert a == ProjectAssignment(u, project, a.role) && a in t'.projectAssignments;
    } else {
      HoldingInOrgIsLocal(w, t, t', sys, sys', u, w.projects[project], p);
    }
  }

  /** What a user holds in an organization depends on the user's own assignments there and own system roles,
      and on nothing in any project or other organization. */
  lemma OrgPermissionsAreLocal(w: World, t: Tables, t': Tables, sys: Assignments, sys': Assignments, u: UUID,
                               org: OrgId)
    requires SameInOrg(t, t', u, org) && SameSystemRoles(sys, sys', u)
    ensures OrgPermissions(w, t, sys, u, org) == OrgPermissions(w, t', sys', u, org)
  {
    OrgPermissionsAre(w, t, sys, u, org);
    OrgPermissionsAre(w, t', sys', u, org);
    forall p ensures HoldsInOrg(w, t, sys, u, org, p) <==> HoldsInOrg(w, t', sys', u, org, p) {
      if HoldsInOrg(w, t, sys, u, org, p) { HoldingInOrgIsLocal(w, t, t', sys, sys', u, org, p); }
      if HoldsInOrg(w, t', sys', u, org, p) { HoldingInOrgIsLocal(w, t', t, sys', sys, u, org, p); }
    }
  }

  /** What a user holds in a project depends on the user's own assignments in this project and in its
      organization and on own system roles: not on any other project, be it of the same organization. */
  lemma ProjectPermissionsAreLocal(w: World, t: Tables, t': Tables, sys: Assignments, sys': Assignments, u: UUID,
                                   project: ProjectId)
    requires SameInProject(t, t', u, project) && project in w.projects && SameInOrg(t, t', u, w.projects[project])
    requires SameSystemRoles(sys, sys', u)
    ensures ProjectPermissions(w, t, sys, u, project) == ProjectPermissions(w, t', sys', u, project)
  {
    ProjectPermissionsAre(w, t, sys, u, project);
    ProjectPermissionsAre(w, t', sys', u, project);
    forall p ensures HoldsInProject(w, t, sys, u, project, p) <==> HoldsInProject(w, t', sys', u, project, p) {
      if HoldsInProject(w, t, sys, u, project, p) { HoldingInProjectIsLocal(w, t, t', sys, sys', u, project, p); }
      if HoldsInProject(w, t', sys', u, project, p) { HoldingInProjectIsLocal(w, t', t, sys', sys, u, project, p); }
    }
  }

  // ---- One row more -------------------------------------------------------------------------------

  /** An assignment in a project gives its user the role's permissions in that project, and nobody anything
      anywhere else; read backwards, that is what an unassignment takes away, short of what other rows give. */
  lemma ProjectAssignmentGives(w: World, t: Tables, sys: Assignments, row: ProjectAssignment, u: UUID,
                               project: ProjectId)
    ensures var t' := t.(projectAssignments := t.projectAssignments + {row});
      ProjectPermissions(w, t', sys, u, project) ==
      ProjectPermissions(w, t, sys, u, project)
      + if u == row.user && project == row.project then RolePermissions(t, row.role) else {}
  {
    var t' := t.(projectAssignments := t.projectAssignments + {row});
    if project in w.projects {
      OrgPermissionsAreLocal(w, t, t', sys, sys, u, w.projects[project]);
    }
    assert forall a :: a in t'.projectAssignments <==> a == row || a in t.projectAssignments;
  }

  /** An assignment in an organization gives its user the role's permissions there and in all its projects, and
      nobody anything anywhere else. */
  lemma OrgAssignmentGives(w: World, t: Tables, sys: Assignments, row: OrgAssignment, u: UUID, org: OrgId)
    ensures var t' := t.(orgAssignments := t.orgAssignments + {row});
      OrgPermissions(w, t', sys, u, org) ==
      OrgPermissions(w, t, sys, u, org) + if u == row.user && org == row.org then RolePermissions(t, row.role) else {}
    ensures var t' := t.(orgAssignments := t.orgAssignments + {row});
      forall project :: project in w.projects && w.projects[project] == org ==>
        ProjectPermissions(w, t', sys, u, project) ==
        ProjectPermissions(w, t, sys, u, project)
        + if u == row.user && org == row.org then RolePermissions(t, row.role) else {}
  {
    var t' := t.(orgAssignments := t.orgAssignments + {row});
    assert forall a :: a in t'.orgAssignments <==> a == row || a in t.orgAssignments;
  }
}
