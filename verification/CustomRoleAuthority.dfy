/** Nobody's authority grows: whatever anyone holds in an organization or a project, after any number
    of interleaved role calls, somebody held there at the start. */
module CustomRoleAuthority {
  import opened Permissions
  import opened SystemRoles
  import opened CustomRoleTables
  import opened CustomRoleProtocol
  import opened CustomRoleInvariants

  ghost predicate HeldInOrg(w: World, t: Tables, sys: Assignments, org: OrgId, p: Permission) {
    exists u :: p in OrgPermissions(w, t, sys, u, org)
  }

  ghost predicate HeldInProject(w: World, t: Tables, sys: Assignments, project: ProjectId, p: Permission) {
    exists u :: p in ProjectPermissions(w, t, sys, u, project)
  }

  /** The foreign keys of the role tables. */
  ghost predicate ForeignKeys(w: World, t: Tables) {
    && (forall x :: x in t.rolePerms ==> x.0 in t.roles)
    && (forall a :: a in t.orgAssignments ==> Owns(t, a.org, a.role))
    && (forall a :: a in t.projectAssignments ==> a.project in w.projects && Owns(t, w.projects[a.project], a.role))
  }

  /** The tables at the start of the run, and the organizations that it creates: nothing bounds what
      their members hold there. */
  datatype Start = Start(w: World, t: Tables, sys: Assignments, created: set<OrgId>) {
    ghost predicate Org(org: OrgId, p: Permission) { org in created || HeldInOrg(w, t, sys, org, p) }

    ghost predicate Project(project: ProjectId, p: Permission) {
      (project in w.projects && w.projects[project] in created) || HeldInProject(w, t, sys, project, p)
    }

    /** A permission that the role had at the start although nobody held it in the organization: no
        permission check lets anyone add or remove it. */
    ghost predicate Frozen(r: RoleId, p: Permission) {
      r in t.roles && (r, p) in t.rolePerms && !Org(t.roles[r].org, p)
    }
  }

  ghost predicate TablesInv(b: Start, t: Tables) {
    && (forall x :: x in t.rolePerms ==> x.0 in t.roles)
    && (forall r :: r in t.roles && r in b.t.roles ==> t.roles[r].org == b.t.roles[r].org)
    && (forall r, p :: r in t.roles && !b.Org(t.roles[r].org, p) ==> ((r, p) in t.rolePerms <==> b.Frozen(r, p)))
    && (forall a :: a in t.orgAssignments && a.role in t.roles ==> t.roles[a.role].org == a.org)
    && (forall a, p :: a in t.orgAssignments && a.role in t.roles ==> !b.Frozen(a.role, p))
    && (forall a :: a in t.projectAssignments && a.role in t.roles ==>
          a.project in b.w.projects && b.w.projects[a.project] == t.roles[a.role].org)
    && (forall a, p :: a in t.projectAssignments && a.role in t.roles && b.Frozen(a.role, p) ==>
        b.Project(a.project, p))
  }

  ghost predicate SystemInv(b: Start, sys: Assignments) {
    forall u, p :: p in SystemPermissions(b.w.env, sys, u) ==> exists v :: p in SystemPermissions(b.w.env, b.sys, v)
  }

  /** What a transaction has established about its actor and its role; none of it can be undone. */
  ghost predicate TxnAuthority(b: Start, t: Tables, x: Txn) {
    && (!x.phase.ReadActor? && !x.phase.RollingBack? && !x.phase.Done? && !x.req.Rename? ==>
          forall p :: p in x.held ==>
            if x.req.AssignToProject? || x.req.UnassignFromProject? then b.Project(x.req.project, p)
            else b.Org(x.org, p))
    && (AfterRead(x) ==>
          match x.req
          case Create(_, _, _, perms) => forall p :: p in perms ==> b.Org(x.org, p)
          case Update(_, _, r, _, _, perms) => forall p :: !b.Org(x.org, p) ==> (p in perms <==> b.Frozen(r, p))
          case Modify(_, _, r, _, add, remove) =>
            forall p :: !b.Org(x.org, p) ==> (p in add ==> b.Frozen(r, p)) && (p in remove ==> !b.Frozen(r, p))
          case AssignToOrg(_, _, _, r) => forall p :: !b.Frozen(r, p)
          case AssignToProject(_, project, _, r) => forall p :: b.Frozen(r, p) ==> b.Project(project, p)
          case _ => true)
    && (AfterRead(x) && !x.req.Create? && !x.req.Rename? && x.req.role in t.roles ==> t.roles[x.req.role].org == x.org)
    && (x.minted.Some? ==> x.minted.value !in b.t.roles)
  }

  /** What the tables allow anyone to hold is bounded by the start. */
  lemma HeldWasHeld(b: Start, t: Tables, sys: Assignments)
    requires TablesInv(b, t) && SystemInv(b, sys)
    ensures forall org, p :: HeldInOrg(b.w, t, sys, org, p) ==> b.Org(org, p)
    ensures forall project, p :: HeldInProject(b.w, t, sys, project, p) ==> b.Project(project, p)
  {
    forall org, p | HeldInOrg(b.w, t, sys, org, p) ensures b.Org(org, p) {
      var u :| p in OrgPermissions(b.w, t, sys, u, org);
      if p in SystemPermissions(b.w.env, sys, u) {
        var v :| p in SystemPermissions(b.w.env, b.sys, v);
        assert p in OrgPermissions(b.w, b.t, b.sys, v, org);
      } else {
        var a, x :| a in t.orgAssignments && x in t.rolePerms && a.user == u && a.org == org && x.0 == a.role
          && x.1 == p;
        assert x == (a.role, p);
        assert !b.Frozen(a.role, p);
      }
    }
    forall project, p | HeldInProject(b.w, t, sys, project, p) ensures b.Project(project, p) {
      var u :| p in ProjectPermissions(b.w, t, sys, u, project);
      if project in b.w.projects && p in OrgPermissions(b.w, t, sys, u, b.w.projects[project]) {
        assert HeldInOrg(b.w, t, sys, b.w.projects[project], p);
        OrgWithinProject(b, project, p);
      } else {
        var a, x :| a in t.projectAssignments && x in t.rolePerms && a.user == u && a.project == project
          && x.0 == a.role && x.1 == p;
        assert x == (a.role, p);
        if b.Org(b.w.projects[project], p) {
          OrgWithinProject(b, project, p);
        } else {
          assert b.Frozen(a.role, p);
        }
      }
    }
  }

  lemma OrgWithinProject(b: Start, project: ProjectId, p: Permission)
    requires project in b.w.projects && b.Org(b.w.projects[project], p)
    ensures b.Project(project, p)
  {
    if b.w.projects[project] !in b.created {
      var u :| p in OrgPermissions(b.w, b.t, b.sys, u, b.w.projects[project]);
      assert p in ProjectPermissions(b.w, b.t, b.sys, u, project);
    }
  }

  lemma StartInv(b: Start)
    requires ForeignKeys(b.w, b.t)
    ensures TablesInv(b, b.t) && SystemInv(b, b.sys)
  {
    forall a, p | a in b.t.orgAssignments && (a.role, p) in b.t.rolePerms ensures b.Org(a.org, p) {
      var x := (a.role, p);
      assert x.0 == a.role && x.1 == p;
      assert p in OrgPermissions(b.w, b.t, b.sys, a.user, a.org);
    }
    forall a, p | a in b.t.projectAssignments && (a.role, p) in b.t.rolePerms ensures b.Project(a.project, p) {
      var x := (a.role, p);
      assert x.0 == a.role && x.1 == p;
      assert p in ProjectPermissions(b.w, b.t, b.sys, a.user, a.project);
    }
  }

  // ---- Steps ------------------------------------------------------------------------------------

  lemma ActorAuthority(b: Start, t: Tables, sys: Assignments, x: Txn)
    requires TablesInv(b, t) && SystemInv(b, sys) && TxnAuthority(b, t, x) && x.phase.ReadActor?
    requires TxnInv(b.w, t, x)
    ensures TxnAuthority(b, t, ActorStep(b.w, t, sys, x))
  {
    HeldWasHeld(b, t, sys);
    var x' := ActorStep(b.w, t, sys, x);
    if !x'.phase.RollingBack? {
      forall p | p in x'.held
        ensures if x.req.AssignToProject? || x.req.UnassignFromProject? then b.Project(x.req.project, p)
          else b.Org(x'.org, p)
      {
        if x.req.AssignToProject? || x.req.UnassignFromProject? {
          assert HeldInProject(b.w, t, sys, x.req.project, p);
        } else {
          assert HeldInOrg(b.w, t, sys, x'.org, p);
        }
      }
    }
  }

  lemma RoleAuthority(b: Start, t: Tables, x: Txn)
    requires TablesInv(b, t) && TxnAuthority(b, t, x) && x.phase.ReadRole?
    requires TxnInv(b.w, t, x)
    ensures TxnAuthority(b, t, RoleStep(t, x))
  {
    var x' := RoleStep(t, x);
    if AfterRead(x') {
      var r := x.req.role;
      assert forall p :: p in x'.seen <==> (r, p) in t.rolePerms;
      assert forall p :: b.Frozen(r, p) ==> !b.Org(x.org, p);
      assert forall p :: !b.Org(x.org, p) ==> (p in x'.seen <==> b.Frozen(r, p));
      assert forall p :: p in Changed(x'.seen, NextPerms(x')) <==> (p in x'.seen) != (p in NextPerms(x'));
    }
  }

  lemma WriteStepAuthority(b: Start, t: Tables, x: Txn, newRole: RoleId, newETag: ETag)
    requires TxnAuthority(b, t, x) && TxnInv(b.w, t, x) && newRole !in b.t.roles
    requires !x.phase.Done? && !x.phase.Commit? && !x.phase.RollingBack? && !Reading(x)
    ensures TxnAuthority(b, t, WriteStep(b.w, t, x, newRole, newETag))
  {
  }

  lemma AdvanceAuthority(b: Start, t: Tables, sys: Assignments, x: Txn, newRole: RoleId, newETag: ETag)
    requires TablesInv(b, t) && SystemInv(b, sys) && TxnAuthority(b, t, x) && TxnInv(b.w, t, x)
    requires !x.phase.Done? && !x.phase.Commit? && !x.phase.RollingBack?
    requires newRole !in b.t.roles
    ensures TxnAuthority(b, t, Advance(b.w, t, sys, x, newRole, newETag))
  {
    if x.phase.ReadActor? {
      ActorAuthority(b, t, sys, x);
    } else if x.phase.ReadRole? {
      RoleAuthority(b, t, x);
    } else if !Reading(x) {
      WriteStepAuthority(b, t, x, newRole, newETag);
    }
  }

  // ---- Commits ----------------------------------------------------------------------------------

  lemma CommitPermissionRows(b: Start, t: Tables, x: Txn)
    requires TablesInv(b, t) && TxnAuthority(b, t, x) && TxnInv(b.w, t, x) && x.phase.Commit?
    requires x.req.Create? ==> Subject(x) !in t.roles
    ensures var t' := Apply(t, x.pending);
      (forall r, p :: r in t'.roles && !b.Org(t'.roles[r].org, p) ==> ((r, p) in t'.rolePerms <==> b.Frozen(r, p)))
  {
    var t' := Apply(t, x.pending);
    forall r, p | r in t'.roles && !b.Org(t'.roles[r].org, p) ensures (r, p) in t'.rolePerms <==> b.Frozen(r, p) {
      CommitKeepsRowIdentity(b.w, t, x, r);
      PermissionsAfter(t, x.pending, r);
      assert p in RolePermissions(t, r) <==> (r, p) in t.rolePerms;
      assert p in RolePermissions(t', r) <==> (r, p) in t'.rolePerms;
    }
  }

  lemma CommitAssignments(b: Start, t: Tables, x: Txn)
    requires TablesInv(b, t) && TxnAuthority(b, t, x) && TxnInv(b.w, t, x) && x.phase.Commit?
    requires x.req.Create? ==> Subject(x) !in t.roles && Subject(x) !in AssignedRoles(t)
    ensures var t' := Apply(t, x.pending);
      && (forall a :: a in t'.orgAssignments && a.role in t'.roles ==> t'.roles[a.role].org == a.org)
      && (forall a, p :: a in t'.orgAssignments && a.role in t'.roles ==> !b.Frozen(a.role, p))
      && (forall a :: a in t'.projectAssignments && a.role in t'.roles ==>
            a.project in b.w.projects && b.w.projects[a.project] == t'.roles[a.role].org)
      && (forall a, p :: a in t'.projectAssignments && a.role in t'.roles && b.Frozen(a.role, p) ==>
          b.Project(a.project, p))
  {
    var t' := Apply(t, x.pending);
    forall a | a in t'.orgAssignments && a.role in t'.roles
      ensures t'.roles[a.role].org == a.org && forall p :: !b.Frozen(a.role, p)
    {
      CommitKeepsRowIdentity(b.w, t, x, a.role);
    }
    forall a | a in t'.projectAssignments && a.role in t'.roles
      ensures a.project in b.w.projects && b.w.projects[a.project] == t'.roles[a.role].org
      ensures forall p :: b.Frozen(a.role, p) ==> b.Project(a.project, p)
    {
      CommitKeepsRowIdentity(b.w, t, x, a.role);
    }
  }

  lemma CommitKeepsTxnAuthority(b: Start, t: Tables, x: Txn, y: Txn)
    requires TxnInv(b.w, t, x) && x.phase.Commit? && TxnAuthority(b, t, y) && Apart(x, y)
    requires x.req.Create? ==> Subject(x) !in t.roles
    ensures TxnAuthority(b, Apply(t, x.pending), y)
  {
    var t' := Apply(t, x.pending);
    if !y.req.Create? && !y.req.Rename? && y.req.role in t'.roles {
      CommitKeepsRowIdentity(b.w, t, x, y.req.role);
    }
  }

  lemma CommitKeepsTables(b: Start, t: Tables, x: Txn)
    requires TablesInv(b, t) && TxnAuthority(b, t, x) && TxnInv(b.w, t, x) && x.phase.Commit?
    requires x.req.Create? ==> Subject(x) !in t.roles && Subject(x) !in AssignedRoles(t)
    ensures TablesInv(b, Apply(t, x.pending))
  {
    var t' := Apply(t, x.pending);
    CommitPermissionRows(b, t, x);
    CommitKeepsRowOwners(b.w, t, x);
    CommitAssignments(b, t, x);
    forall r | r in t'.roles && r in b.t.roles ensures t'.roles[r].org == b.t.roles[r].org {
      CommitKeepsRowIdentity(b.w, t, x, r);
    }
  }

  ghost predicate AuthorityInv(b: Start, s: State) {
    && TablesInv(b, s.t) && SystemInv(b, s.sys) && b.t.roles.Keys <= s.knownRoles
    && (forall i :: i in s.txns ==> TxnAuthority(b, s.t, s.txns[i]))
  }

  lemma AdvancedKeepsAuthority(b: Start, s: State, a: Action, s': State, x': Txn)
    requires AuthorityInv(b, s) && Advanced(b.w, s, a, s', x') && TxnAuthority(b, s.t, x')
    ensures AuthorityInv(b, s')
  {
  }

  lemma EndedKeepsTxnAuthority(b: Start, s: State, a: Action, s': State, j: nat)
    requires Ended(s, a, s') && j in s.txns
    requires TxnInv(b.w, s.t, s.txns[a.tid]) && TxnAuthority(b, s.t, s.txns[j])
    requires j != a.tid && s.txns[a.tid].phase.Commit? ==> Apart(s.txns[a.tid], s.txns[j])
    requires var x := s.txns[a.tid]; Uncommitted(x) ==> Subject(x) !in s.t.roles
    ensures TxnAuthority(b, s'.t, s'.txns[j])
  {
    if j != a.tid && s.txns[a.tid].phase.Commit? {
      CommitKeepsTxnAuthority(b, s.t, s.txns[a.tid], s.txns[j]);
    }
  }

  lemma EndedKeepsAuthority(b: Start, s: State, a: Action, s': State)
    requires AuthorityInv(b, s) && Ended(s, a, s') && Ready(b.w, s, a.tid)
    ensures AuthorityInv(b, s')
  {
    var x := s.txns[a.tid];
    assert TxnAuthority(b, s.t, x);
    if x.phase.Commit? { CommitKeepsTables(b, s.t, x); }
    forall j | j in s'.txns ensures TxnAuthority(b, s'.t, s'.txns[j]) {
      EndedKeepsTxnAuthority(b, s, a, s', j);
    }
  }

  lemma SystemKeepsAuthority(b: Start, sys: Assignments, call: Call)
    requires SystemInv(b, sys) && !call.Bootstrap?
    ensures SystemInv(b, Atomic(b.w.env, sys, call).0)
  {
    var sys' := Atomic(b.w.env, sys, call).0;
    forall u, p | p in SystemPermissions(b.w.env, sys', u)
      ensures exists v :: p in SystemPermissions(b.w.env, b.sys, v)
    {
      AtomicGrantsNothingNew(b.w.env, sys, call, u, p);
      var v :| p in SystemPermissions(b.w.env, sys, v);
    }
  }

  lemma DroppedKeepsAuthority(b: Start, s: State, a: Action, s': State)
    requires AuthorityInv(b, s) && Dropped(s, a, s')
    ensures AuthorityInv(b, s')
  {
    forall j | j in s'.txns ensures TxnAuthority(b, s'.t, s'.txns[j]) {
      assert TxnAuthority(b, s.t, s.txns[j]);
    }
  }

  lemma FoundedTables(b: Start, s: State, a: Action, s': State)
    requires TablesInv(b, s.t) && FreshInv(s) && Founded(b.w, s, a, s') && a.org in b.created
    requires b.t.roles.Keys <= s.knownRoles
    ensures TablesInv(b, s'.t)
  {
    forall r, p | r in s'.t.roles && !b.Org(s'.t.roles[r].org, p) ensures (r, p) in s'.t.rolePerms <==> b.Frozen(r, p) {
      assert r != a.newRole;
      FoundingLeavesOtherRoles(s.t, a.org, a.creator, a.newRole, a.newETag, r);
    }
    assert a.newRole !in AssignedRoles(s.t);
  }

  lemma FoundedKeepsAuthority(b: Start, s: State, a: Action, s': State)
    requires AuthorityInv(b, s) && Founded(b.w, s, a, s') && FreshInv(s) && a.org in b.created
    ensures AuthorityInv(b, s')
  {
    FoundedTables(b, s, a, s');
    forall j | j in s'.txns ensures TxnAuthority(b, s'.t, s'.txns[j]) {
      assert TxnAuthority(b, s.t, s.txns[j]);
      if !s.txns[j].req.Create? { assert s.txns[j].req.role != a.newRole; }
    }
  }

  lemma MoveKeepsAuthority(b: Start, s: State, a: Action, s': State)
    requires Inv(b.w, s) && AuthorityInv(b, s) && Move(b.w, s, a, s')
    requires a.CreateOrganization? ==> a.org in b.created
    ensures AuthorityInv(b, s')
  {
    match a
    case System(call) => SystemKeepsAuthority(b, s.sys, call);
    case Begin(_, _) =>
    case Cancel(_) => DroppedKeepsAuthority(b, s, a, s');
    case CreateOrganization(_, _, _, _) => FoundedKeepsAuthority(b, s, a, s');
    case Step(tid, newRole, newETag) =>
      if Ended(s, a, s') {
        InvReady(b.w, s, tid);
        EndedKeepsAuthority(b, s, a, s');
      } else {
        assert TxnAuthority(b, s.t, s.txns[tid]);
        AdvanceAuthority(b, s.t, s.sys, s.txns[tid], newRole, newETag);
        AdvancedKeepsAuthority(b, s, a, s', Advance(b.w, s.t, s.sys, s.txns[tid], newRole, newETag));
      }
  }

  function CreatedOrgs(actions: seq<Action>): set<OrgId> {
    set a | a in actions && a.CreateOrganization? :: a.org
  }

  lemma {:induction false} RunKeepsAuthority(b: Start, s: State, actions: seq<Action>)
    requires Inv(b.w, s) && AuthorityInv(b, s) && CreatedOrgs(actions) <= b.created
    ensures AuthorityInv(b, Run(b.w, s, actions))
    decreases |actions|
  {
    if actions != [] {
      assert CreatedOrgs(actions[1..]) <= CreatedOrgs(actions);
      if Enabled(b.w, s, actions[0]) {
        assert actions[0].CreateOrganization? ==> actions[0].org in CreatedOrgs(actions);
        NextMoves(b.w, s, actions[0]);
        MoveKeepsInv(b.w, s, actions[0], Next(b.w, s, actions[0]));
        MoveKeepsAuthority(b, s, actions[0], Next(b.w, s, actions[0]));
        RunKeepsAuthority(b, Next(b.w, s, actions[0]), actions[1..]);
      } else {
        RunKeepsAuthority(b, s, actions[1..]);
      }
    }
  }

  /** A start of a run: no transaction is open, and the identifiers in the tables are known. */
  ghost predicate Initial(w: World, s: State) {
    && ForeignKeys(w, s.t) && s.txns == map[] && s.t.roles.Keys <= s.knownRoles
  }

  /** Over any interleaving of custom-role calls, non-bootstrap system-role changes and creations of
      organizations, the permissions that anyone holds in an organization that was there at the start, or
      in one of its projects, never exceed those that someone held there at the start. */
  lemma AuthorityNeverGrows(w: World, s: State, actions: seq<Action>)
    requires Initial(w, s)
    ensures var s', created := Run(w, s, actions), CreatedOrgs(actions);
      && (forall org, p :: org !in created && HeldInOrg(w, s'.t, s'.sys, org, p) ==> HeldInOrg(w, s.t, s.sys, org, p))
      && (forall project, p :: HeldInProject(w, s'.t, s'.sys, project, p) ==>
            || (project in w.projects && w.projects[project] in created)
            || HeldInProject(w, s.t, s.sys, project, p))
  {
    var created := CreatedOrgs(actions);
    var b := Start(w, s.t, s.sys, created);
    var s' := Run(w, s, actions);
    StartInv(b);
    RunKeepsAuthority(b, s, actions);
    HeldWasHeld(b, s'.t, s'.sys);
    forall org, p | org !in created && HeldInOrg(w, s'.t, s'.sys, org, p) ensures HeldInOrg(w, s.t, s.sys, org, p) {
      assert b.Org(org, p);
    }
    forall project, p | HeldInProject(w, s'.t, s'.sys, project, p)
      ensures (project in w.projects && w.projects[project] in created) || HeldInProject(w, s.t, s.sys, project, p)
    {
      assert b.Project(project, p);
    }
  }
}
