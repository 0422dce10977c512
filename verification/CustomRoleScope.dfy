/** Assignment scope and managed roles, in every reachable committed state. */
module CustomRoleScope {
  import opened Permissions
  import opened SystemRoles
  import opened CustomRoleTables
  import opened CustomRoleProtocol
  import opened CustomRoleInvariants
  import CustomRoleAuthority

  /** No role with a project assignment needs more than project scope; no custom role holds a
      system-only permission; the managed administrator has exactly its canonical permissions and no
      project assignment. */
  ghost predicate RoleRules(t: Tables) {
    && (forall r :: HasProjectAssignments(t, r) ==> ProjectScoped(RolePermissions(t, r)))
    && (forall r :: CustomRoleAssignable(RolePermissions(t, r)))
    && (forall r :: r in t.roles && t.roles[r].managed ==>
          RolePermissions(t, r) == ToSet(OrganizationAdminPermissions()) && !HasProjectAssignments(t, r))
  }

  predicate ScopeChecked(x: Txn) {
    AfterRead(x) && !x.phase.CheckScope?
  }

  /** The scope test of a transaction that holds the role lock is still right. */
  ghost predicate TxnScope(t: Tables, x: Txn) {
    && (x.req.AssignToProject? && AfterRead(x) ==> ProjectScoped(x.seen))
    && ((x.req.Update? || x.req.Modify?) && ScopeChecked(x) ==>
          ProjectScoped(NextPerms(x)) || !HasProjectAssignments(t, x.req.role))
  }

  lemma AdvanceScope(w: World, t: Tables, sys: Assignments, x: Txn, newRole: RoleId, newETag: ETag)
    requires TxnInv(w, t, x) && TxnScope(t, x)
    requires !x.phase.Done? && !x.phase.Commit? && !x.phase.RollingBack?
    ensures TxnScope(t, Advance(w, t, sys, x, newRole, newETag))
  {
  }

  lemma CommitKeepsTxnScope(w: World, t: Tables, x: Txn, y: Txn)
    requires TxnInv(w, t, x) && TxnInv(w, t, y) && Apart(x, y) && x.phase.Commit? && TxnScope(t, y)
    ensures TxnScope(Apply(t, x.pending), y)
  {
    CommitKeepsOther(w, t, x, y);
  }

  /** The permissions of a role after a commit, by who committed. */
  lemma CommittedPermissions(w: World, t: Tables, x: Txn, r: RoleId)
    requires TxnInv(w, t, x) && x.phase.Commit?
    requires x.req.Create? ==> RolePermissions(t, Subject(x)) == {}
    ensures RolePermissions(Apply(t, x.pending), r) ==
      if r != Subject(x) then RolePermissions(t, r)
      else match x.req
        case Create(_, _, _, perms) => perms
        case Update(_, _, _, _, _, perms) => perms
        case Modify(_, _, _, _, _, _) => NextPerms(x)
        case Delete(_, _, _) => {}
        case _ => RolePermissions(t, r)
  {
    PermissionsAfter(t, x.pending, r);
    if x.req.Update? || x.req.Modify? { EditCommitsReplacement(w, t, x); }
  }

  lemma NextPermsAssignable(w: World, x: Txn)
    requires CommitShape(w, x) && Validated(x.req) && w.env.registry <= ToSet(AllPermissions())
    requires CustomRoleAssignable(x.seen)
    requires x.req.Update? || x.req.Modify? || x.req.Create?
    ensures CustomRoleAssignable(if x.req.Create? then x.req.perms else NextPerms(x))
  {
    ValidAndRegistered(if x.req.Modify? then x.req.add + x.req.remove else x.req.perms);
  }

  lemma CommitKeepsAssignable(w: World, t: Tables, x: Txn, r: RoleId)
    requires TxnInv(w, t, x) && x.phase.Commit? && RoleRules(t)
    requires w.env.registry <= ToSet(AllPermissions())
    requires x.req.Create? ==> RolePermissions(t, Subject(x)) == {} && x.seen == {}
    ensures CustomRoleAssignable(RolePermissions(Apply(t, x.pending), r))
  {
    CommittedPermissions(w, t, x, r);
    assert CustomRoleAssignable(RolePermissions(t, r));
    if r == Subject(x) && (x.req.Create? || x.req.Update? || x.req.Modify?) {
      if !x.req.Create? { assert CustomRoleAssignable(RolePermissions(t, x.req.role)); }
      NextPermsAssignable(w, x);
    }
  }

  lemma CommitKeepsScope(w: World, t: Tables, x: Txn, r: RoleId)
    requires TxnInv(w, t, x) && x.phase.Commit? && RoleRules(t) && TxnScope(t, x)
    requires x.req.Create? ==> RolePermissions(t, Subject(x)) == {} && Subject(x) !in AssignedRoles(t)
    requires HasProjectAssignments(Apply(t, x.pending), r)
    ensures ProjectScoped(RolePermissions(Apply(t, x.pending), r))
  {
    CommittedPermissions(w, t, x, r);
    var t' := Apply(t, x.pending);
    var a :| a in t'.projectAssignments && a.role == r;
    if a in t.projectAssignments {
      assert HasProjectAssignments(t, r);
      assert r in AssignedRoles(t);
    }
  }

  /** No call edits, deletes or assigns in a project a role that is managed. */
  lemma CommitSparesManaged(w: World, t: Tables, x: Txn, r: RoleId)
    requires TxnInv(w, t, x) && x.phase.Commit? && RoleRules(t) && TxnScope(t, x)
    requires r in t.roles && t.roles[r].managed && r == Subject(x) && !x.req.Create?
    ensures !x.req.Update? && !x.req.Modify? && !x.req.Delete? && !x.req.AssignToProject?
  {
    OrganizationAdminIsOrgScoped();
  }

  lemma CommitKeepsManaged(w: World, t: Tables, x: Txn, r: RoleId)
    requires TxnInv(w, t, x) && x.phase.Commit? && RoleRules(t) && TxnScope(t, x)
    requires x.req.Create? ==> RolePermissions(t, Subject(x)) == {} && Subject(x) !in t.roles
    ensures var t' := Apply(t, x.pending);
      && (r in t'.roles && t'.roles[r].managed ==>
            r in t.roles && t.roles[r].managed
            && RolePermissions(t', r) == RolePermissions(t, r)
            && !HasProjectAssignments(t', r))
      && (r in t.roles && t.roles[r].managed ==> r in t'.roles && t'.roles[r].managed)
  {
    CommittedPermissions(w, t, x, r);
    var t' := Apply(t, x.pending);
    if r in t'.roles { CommitKeepsRowIdentity(w, t, x, r); }
    if r in t.roles && t.roles[r].managed {
      if r == Subject(x) && !x.req.Create? { CommitSparesManaged(w, t, x, r); }
      assert forall a :: a in t.projectAssignments ==> a.role != r;
    }
  }

  lemma CommitKeepsRules(w: World, t: Tables, x: Txn)
    requires TxnInv(w, t, x) && x.phase.Commit? && RoleRules(t) && TxnScope(t, x)
    requires w.env.registry <= ToSet(AllPermissions())
    requires x.req.Create? ==> RolePermissions(t, Subject(x)) == {} && x.seen == {}
    requires x.req.Create? ==> Subject(x) !in t.roles && Subject(x) !in AssignedRoles(t)
    ensures RoleRules(Apply(t, x.pending))
  {
    var t' := Apply(t, x.pending);
    forall r | HasProjectAssignments(t', r) ensures ProjectScoped(RolePermissions(t', r)) {
      CommitKeepsScope(w, t, x, r);
    }
    forall r ensures CustomRoleAssignable(RolePermissions(t', r)) {
      CommitKeepsAssignable(w, t, x, r);
    }
    forall r | r in t'.roles && t'.roles[r].managed
      ensures RolePermissions(t', r) == ToSet(OrganizationAdminPermissions()) && !HasProjectAssignments(t', r)
    {
      CommitKeepsManaged(w, t, x, r);
    }
  }

  ghost predicate TxnScopeInv(t: Tables, x: Txn) {
    TxnScope(t, x) && (x.req.Create? ==> x.seen == {})
  }

  ghost predicate ScopeInv(w: World, s: State) {
    && RoleRules(s.t)
    && (forall y :: y in s.t.rolePerms ==> y.0 in s.t.roles)
    && (forall i :: i in s.txns ==> TxnScopeInv(s.t, s.txns[i]))
  }

  lemma AdvanceKeepsSeen(w: World, t: Tables, sys: Assignments, x: Txn, newRole: RoleId, newETag: ETag)
    requires TxnInv(w, t, x) && x.req.Create? && !x.phase.Done?
    ensures Advance(w, t, sys, x, newRole, newETag).seen == x.seen
  {
  }

  /** Managed roles of `t` are still there, still managed, in `t'`. */
  ghost predicate ManagedStay(t: Tables, t': Tables) {
    forall r :: r in t.roles && t.roles[r].managed ==> r in t'.roles && t'.roles[r].managed
  }

  lemma EndedKeepsTxnScope(w: World, s: State, a: Action, s': State, j: nat)
    requires Ended(s, a, s') && j in s.txns
    requires TxnInv(w, s.t, s.txns[a.tid]) && TxnInv(w, s.t, s.txns[j])
    requires j != a.tid && s.txns[a.tid].phase.Commit? ==> Apart(s.txns[a.tid], s.txns[j])
    requires TxnScopeInv(s.t, s.txns[j])
    ensures TxnScopeInv(s'.t, s'.txns[j])
  {
    if j != a.tid && s.txns[a.tid].phase.Commit? {
      CommitKeepsTxnScope(w, s.t, s.txns[a.tid], s.txns[j]);
    }
  }

  lemma EndedKeepsTables(w: World, s: State, a: Action, s': State)
    requires ScopeInv(w, s) && Ended(s, a, s') && Ready(w, s, a.tid) && w.env.registry <= ToSet(AllPermissions())
    ensures RoleRules(s'.t) && ManagedStay(s.t, s'.t) && forall y :: y in s'.t.rolePerms ==> y.0 in s'.t.roles
  {
    var x := s.txns[a.tid];
    assert TxnScopeInv(s.t, x);
    if x.phase.Commit? {
      assert x.req.Create? ==> Uncommitted(x) && RolePermissions(s.t, Subject(x)) == {};
      CommitKeepsRules(w, s.t, x);
      CommitKeepsRowOwners(w, s.t, x);
      forall r | r in s.t.roles && s.t.roles[r].managed ensures r in s'.t.roles && s'.t.roles[r].managed {
        CommitKeepsManaged(w, s.t, x, r);
      }
    }
  }

  lemma EndedKeepsScope(w: World, s: State, a: Action, s': State)
    requires ScopeInv(w, s) && Ended(s, a, s') && Ready(w, s, a.tid) && w.env.registry <= ToSet(AllPermissions())
    requires forall j :: j in s.txns ==> TxnInv(w, s.t, s.txns[j])
    ensures ScopeInv(w, s') && ManagedStay(s.t, s'.t)
  {
    EndedKeepsTables(w, s, a, s');
    forall j | j in s'.txns ensures TxnScopeInv(s'.t, s'.txns[j]) {
      EndedKeepsTxnScope(w, s, a, s', j);
    }
  }

  lemma AdvancedKeepsScope(w: World, s: State, a: Action, s': State)
    requires ScopeInv(w, s) && a.Step? && a.tid in s.txns && TxnInv(w, s.t, s.txns[a.tid]) && AdvancedBy(w, s, a, s')
    ensures ScopeInv(w, s') && ManagedStay(s.t, s'.t)
  {
    var x := s.txns[a.tid];
    assert TxnScopeInv(s.t, x);
    AdvanceScope(w, s.t, s.sys, x, a.newRole, a.newETag);
    if x.req.Create? { AdvanceKeepsSeen(w, s.t, s.sys, x, a.newRole, a.newETag); }
  }

  lemma DroppedKeepsScope(w: World, s: State, a: Action, s': State)
    requires ScopeInv(w, s) && Dropped(s, a, s')
    ensures ScopeInv(w, s') && ManagedStay(s.t, s'.t)
  {
    forall j | j in s'.txns ensures TxnScopeInv(s'.t, s'.txns[j]) {
      assert TxnScopeInv(s.t, s.txns[j]);
    }
  }

  lemma FoundedRole(t: Tables, org: OrgId, creator: UUID, id: RoleId, etag: ETag, r: RoleId)
    requires id !in t.roles && id !in AssignedRoles(t) && RolePermissions(t, id) == {}
    ensures var t' := Apply(t, BootstrapRows(org, creator, id, etag));
      && RolePermissions(t', r) == (if r == id then ToSet(OrganizationAdminPermissions()) else RolePermissions(t, r))
      && HasProjectAssignments(t', r) == HasProjectAssignments(t, r)
      && !HasProjectAssignments(t, id)
  {
    PermissionsAfter(t, BootstrapRows(org, creator, id, etag), r);
  }

  /** The managed administrator role comes with its rules, whatever else is in flight. */
  lemma FoundedTables(w: World, s: State, a: Action, s': State)
    requires ScopeInv(w, s) && FreshInv(s) && Founded(w, s, a, s')
    ensures RoleRules(s'.t) && ManagedStay(s.t, s'.t) && forall y :: y in s'.t.rolePerms ==> y.0 in s'.t.roles
    ensures s'.t.roles[a.newRole].managed && s'.t.roles[a.newRole].org == a.org
  {
    OrganizationAdminIsOrgScoped();
    assert a.newRole !in s.t.roles && a.newRole !in AssignedRoles(s.t);
    forall r ensures CustomRoleAssignable(RolePermissions(s'.t, r))
      ensures HasProjectAssignments(s'.t, r) ==> ProjectScoped(RolePermissions(s'.t, r))
      ensures r in s'.t.roles && s'.t.roles[r].managed ==>
        RolePermissions(s'.t, r) == ToSet(OrganizationAdminPermissions()) && !HasProjectAssignments(s'.t, r)
    {
      FoundedRole(s.t, a.org, a.creator, a.newRole, a.newETag, r);
      assert CustomRoleAssignable(RolePermissions(s.t, r));
    }
  }

  lemma FoundedKeepsScope(w: World, s: State, a: Action, s': State)
    requires ScopeInv(w, s) && FreshInv(s) && Founded(w, s, a, s')
    ensures ScopeInv(w, s') && ManagedStay(s.t, s'.t)
  {
    FoundedTables(w, s, a, s');
    forall r ensures HasProjectAssignments(s'.t, r) == HasProjectAssignments(s.t, r) {}
    forall j | j in s'.txns ensures TxnScopeInv(s'.t, s'.txns[j]) {
      assert TxnScopeInv(s.t, s.txns[j]);
    }
  }

  lemma MoveKeepsScope(w: World, s: State, a: Action, s': State)
    requires Inv(w, s) && ScopeInv(w, s) && Move(w, s, a, s') && w.env.registry <= ToSet(AllPermissions())
    ensures ScopeInv(w, s') && ManagedStay(s.t, s'.t)
  {
    match a
    case Begin(_, _) =>
    case System(_) =>
    case Cancel(_) => DroppedKeepsScope(w, s, a, s');
    case CreateOrganization(_, _, _, _) => FoundedKeepsScope(w, s, a, s');
    case Step(tid, _, _) =>
      if Ended(s, a, s') {
        InvReady(w, s, tid);
        EndedKeepsScope(w, s, a, s');
      } else {
        AdvancedKeepsScope(w, s, a, s');
      }
  }

  lemma {:induction false} RunKeepsScope(w: World, s: State, actions: seq<Action>)
    requires Inv(w, s) && ScopeInv(w, s) && w.env.registry <= ToSet(AllPermissions())
    ensures ScopeInv(w, Run(w, s, actions)) && ManagedStay(s.t, Run(w, s, actions).t)
    decreases |actions|
  {
    if actions != [] {
      if Enabled(w, s, actions[0]) {
        NextMoves(w, s, actions[0]);
        MoveKeepsInv(w, s, actions[0], Next(w, s, actions[0]));
        MoveKeepsScope(w, s, actions[0], Next(w, s, actions[0]));
        RunKeepsScope(w, Next(w, s, actions[0]), actions[1..]);
      } else {
        RunKeepsScope(w, s, actions[1..]);
      }
    }
  }

  /** Every committed state of every interleaving keeps the role rules, with managed roles created while
      other calls are in flight; and no managed role is ever deleted or becomes unmanaged. */
  lemma RoleRulesAlwaysHold(w: World, s: State, actions: seq<Action>)
    requires CustomRoleAuthority.Initial(w, s) && RoleRules(s.t)
    requires w.env.registry <= ToSet(AllPermissions())
    ensures RoleRules(Run(w, s, actions).t) && ManagedStay(s.t, Run(w, s, actions).t)
  {
    RunKeepsScope(w, s, actions);
  }

  /** The bootstrap's two statements, one after the other, write the rows of the action, and leave the
      creator holding every administrator permission in the new organization. */
  lemma BootstrapStatements(w: World, t: Tables, sys: Assignments, org: OrgId, creator: UUID, id: RoleId, etag: ETag)
    requires creator in w.env.users && (creator, org) in w.members && id !in t.roles && id !in AssignedRoles(t)
    requires CreateStatement(w, t, org, ADMINISTRATOR_NAME, true, ToSet(OrganizationAdminPermissions()), id,
                             etag).error.None?
    ensures var t1 := Apply(t, CreateStatement(w, t, org, ADMINISTRATOR_NAME, true,
                                               ToSet(OrganizationAdminPermissions()), id, etag).delta);
      var assign := AssignToOrgStatement(w, t1, t1, creator, id, org);
      var t2 := Apply(t1, assign.delta);
      && assign.error.None? && t2 == Apply(t, BootstrapRows(org, creator, id, etag))
      && t2 == Tables(t.roles[id := Role(org, ADMINISTRATOR_NAME, true, etag)],
                      t.rolePerms + RowsOf(id, ToSet(OrganizationAdminPermissions())),
                      t.projectAssignments, t.orgAssignments + {OrgAssignment(creator, org, id)})
      && ToSet(OrganizationAdminPermissions()) <= OrgPermissions(w, t2, sys, creator, org)
  {
    var role := Role(org, ADMINISTRATOR_NAME, true, etag);
    var admin := ToSet(OrganizationAdminPermissions());
    var t1 := Apply(t, CreateStatement(w, t, org, ADMINISTRATOR_NAME, true, admin, id, etag).delta);
    assert t1.roles == t.roles[id := role];
    assert OrgAssignment(creator, org, id) !in t.orgAssignments;
    var t2 := Apply(t1, AssignToOrgStatement(w, t1, t1, creator, id, org).delta);
    assert t2.roles == t1.roles && Apply(t, BootstrapRows(org, creator, id, etag)).roles == t1.roles;
    forall p | p in admin ensures p in OrgPermissions(w, t2, sys, creator, org) {
      var a, x := OrgAssignment(creator, org, id), (id, p);
      assert a in t2.orgAssignments && x in t2.rolePerms;
    }
  }
}
