/** What the locks of the custom-role protocol keep true, for every transaction in flight. */
module CustomRoleInvariants {
  import opened Permissions
  import opened SystemRoles
  import opened CustomRoleTables
  import opened CustomRoleProtocol

  predicate AfterRead(x: Txn) {
    !x.phase.ReadActor? && !x.phase.LockRole? && !x.phase.ReadRole? && !x.phase.RollingBack? && !x.phase.Done?
  }

  /** The role lock: from the read on, the role is there, unmanaged if it is being edited, and has the
      permissions that were read. A role that was missing when the lock was asked for stays missing. */
  ghost predicate Guarded(t: Tables, x: Txn) {
    LocksRole(x.req) ==>
      && (x.phase.ReadRole? ==> x.locked || x.req.role !in t.roles)
      && (AfterRead(x) ==>
            && x.locked && Owns(t, x.org, x.req.role)
            && RolePermissions(t, x.req.role) == x.seen
            && (x.req.AssignToProject? || !t.roles[x.req.role].managed))
  }

  /** The row lock: the row version that passed the ETag test is still the committed one. */
  ghost predicate RowGuarded(t: Tables, x: Txn) {
    x.rowLocked ==>
      && !x.req.Create? && Owns(t, x.org, x.req.role)
      && (x.req.Update? || x.req.Rename? ==> t.roles[x.req.role].etag == x.req.etag)
  }

  /** The inserted row's foreign key: the role it refers to is still there. */
  ghost predicate ShareGuarded(t: Tables, x: Txn) {
    x.shared ==> Assigns(x.req) && (x.phase.Commit? || x.phase.RollingBack?) && Owns(t, x.org, x.req.role)
  }

  ghost predicate UpdatesRow(x: Txn, name: Option<string>)
    requires !x.req.Create?
  {
    && x.pending.rows.Keys == {x.req.role}
    && x.pending.rows[x.req.role].UpdateRow? && x.pending.rows[x.req.role].name == name
  }

  ghost predicate NoAssignmentRows(d: Delta) {
    d.projectDel == {} && d.projectIns == {} && d.orgDel == {} && d.orgIns == {}
  }

  ghost predicate DeletesOnlyRole(d: Delta, r: RoleId) {
    && d.permIns == {} && d.projectIns == {} && d.orgIns == {}
    && (forall a :: a in d.projectDel ==> a.role == r)
    && (forall a :: a in d.orgDel ==> a.role == r)
  }

  /** The rows a transaction is about to commit, by what it was asked to do and what it read. */
  ghost predicate CommitShape(w: World, x: Txn) {
    var d := x.pending;
    match x.req
    case Create(_, _, name, perms) =>
      && x.minted.Some? && !x.rowLocked && perms <= w.env.registry
      && d.rows.Keys == {x.minted.value}
      && d.rows[x.minted.value].InsertRow?
      && (var role := d.rows[x.minted.value].role; role.org == x.org && role.name == name && !role.managed)
      && d.permDel == {} && d.permIns == RowsOf(x.minted.value, perms) && NoAssignmentRows(d)
    case Update(_, _, r, _, name, perms) =>
      && x.rowLocked && UpdatesRow(x, name) && perms <= w.env.registry
      && d.permDel == RowsOf(r, x.seen) && d.permIns == RowsOf(r, perms) && NoAssignmentRows(d)
    case Rename(_, _, _, name) =>
      x.rowLocked && UpdatesRow(x, name) && d.permDel == {} && d.permIns == {} && NoAssignmentRows(d)
    case Modify(_, _, r, _, add, remove) =>
      && add + remove <= w.env.registry
      && d.permDel == RowsOf(r, x.seen * remove) && d.permIns == RowsOf(r, add - x.seen) && NoAssignmentRows(d)
      && (if r !in d.rows then d.rows == map[] && !x.rowLocked && NextPerms(x) == x.seen
          else x.rowLocked && UpdatesRow(x, None) && NextPerms(x) != x.seen)
    case Delete(_, _, r) =>
      x.rowLocked && d.rows == map[r := DeleteRow] && d.permDel == RowsOf(r, x.seen) && DeletesOnlyRole(d, r)
    case AssignToProject(_, project, target, r) =>
      !x.rowLocked && x.shared && d == NO_CHANGE.(projectIns := {ProjectAssignment(target, project, r)})
    case UnassignFromProject(_, project, target, r) =>
      !x.rowLocked && d == NO_CHANGE.(projectDel := {ProjectAssignment(target, project, r)})
    case AssignToOrg(_, _, target, r) =>
      !x.rowLocked && x.shared && d == NO_CHANGE.(orgIns := {OrgAssignment(target, x.org, r)})
    case UnassignFromOrg(_, _, target, r) =>
      !x.rowLocked && d == NO_CHANGE.(orgDel := {OrgAssignment(target, x.org, r)})
  }

  ghost predicate PendingInv(w: World, x: Txn)
    requires PhaseFits(x)
  {
    match x.phase
    case DeletePermissions =>
      && NoAssignmentRows(x.pending)
      && (x.failed.None? ==>
            x.rowLocked && UpdatesRow(x, x.req.newName) && x.pending.permDel == {} && x.pending.permIns == {}
            && x.req.perms <= w.env.registry)
    case InsertPermissions =>
      && NoAssignmentRows(x.pending)
      && (x.failed.None? ==>
            x.rowLocked && UpdatesRow(x, x.req.newName) && x.pending.permDel == RowsOf(x.req.role, x.seen)
            && x.pending.permIns == {} && x.req.perms <= w.env.registry)
    case IndexName =>
      && x.failed.None? && NoAssignmentRows(x.pending) && (x.req.Create? ==> !x.rowLocked)
      && (if x.req.Update? then
            x.rowLocked && UpdatesRow(x, x.req.newName) && x.pending.permDel == {} && x.pending.permIns == {}
            && x.req.perms <= w.env.registry
          else CommitShape(w, x))
    case TouchRole =>
      && !x.rowLocked && x.pending.rows == map[] && NoAssignmentRows(x.pending)
      && x.req.add + x.req.remove <= w.env.registry
      && x.pending.permDel == RowsOf(x.req.role, x.seen * x.req.remove)
      && x.pending.permIns == RowsOf(x.req.role, x.req.add - x.seen)
      && NextPerms(x) != x.seen
    case DeleteOrgAssignments =>
      !x.rowLocked && x.pending.rows == map[] && x.pending.permDel == {} && DeletesOnlyRole(x.pending, x.req.role)
    case DeleteRolePermissions =>
      !x.rowLocked && x.pending.rows == map[] && x.pending.permDel == {} && DeletesOnlyRole(x.pending, x.req.role)
    case DeleteRole =>
      && !x.rowLocked && x.pending.rows == map[] && x.pending.permDel == RowsOf(x.req.role, x.seen)
      && DeletesOnlyRole(x.pending, x.req.role)
    case Commit => CommitShape(w, x)
    case RollingBack(_) => true
    case Done(_) => !x.locked && !x.rowLocked
    case _ => x.pending == NO_CHANGE && !x.rowLocked && x.failed.None?
  }

  /** A new name is in the index from the step that enters it until the transaction ends. */
  ghost predicate Indexed(x: Txn) {
    && (x.named ==>
          && NamesRole(x.req) && (if x.req.Create? then x.minted.Some? else x.rowLocked)
          && (x.phase.DeletePermissions? || x.phase.InsertPermissions? || x.phase.Commit? || x.phase.RollingBack?))
    && (NamesRole(x.req) && (x.phase.DeletePermissions? || x.phase.InsertPermissions?) ==> x.named || x.failed.Some?)
    && (NamesRole(x.req) && x.phase.Commit? ==> x.named)
  }

  ghost predicate TxnInv(w: World, t: Tables, x: Txn) {
    && PhaseFits(x) && Validated(x.req)
    && Guarded(t, x) && RowGuarded(t, x) && ShareGuarded(t, x) && PendingInv(w, x)
    && (x.locked ==> LocksRole(x.req))
    && (x.minted.Some? ==>
          x.req.Create? && (x.phase.IndexName? || x.phase.Commit? || x.phase.RollingBack? || x.phase.Done?))
    && Indexed(x)
    && (!x.phase.ReadActor? && !x.phase.RollingBack? && !x.phase.Done? && !x.req.Rename? ==>
          x.req.actor in w.env.users && x.req.project in w.projects && x.org == w.projects[x.req.project])
  }

  /** One has written the role row, the other has inserted a row that refers to it. */
  predicate Clash(x: Txn, y: Txn) {
    x.shared && y.rowLocked && !x.req.Create? && !y.req.Create? && x.req.role == y.req.role
  }

  ghost predicate LockInv(s: State) {
    && (forall i :: i in s.txns && s.txns[i].locked ==>
          LocksRole(s.txns[i].req) && s.txns[i].req.role in s.roleLock && s.roleLock[s.txns[i].req.role] == i)
    && (forall i :: i in s.txns && s.txns[i].rowLocked ==>
          !s.txns[i].req.Create? && s.txns[i].req.role in s.rowLock && s.rowLock[s.txns[i].req.role] == i)
    && (forall i, j :: i in s.txns && j in s.txns && i != j ==> !Clash(s.txns[i], s.txns[j]))
  }

  function AssignedRoles(t: Tables): set<RoleId> {
    (set a | a in t.projectAssignments :: a.role) + (set a | a in t.orgAssignments :: a.role)
  }

  ghost predicate KnownIds(s: State) {
    && s.t.roles.Keys <= s.knownRoles && AssignedRoles(s.t) <= s.knownRoles
    && (forall i :: i in s.txns && !s.txns[i].req.Create? ==> s.txns[i].req.role in s.knownRoles)
    && (forall i :: i in s.txns && s.txns[i].minted.Some? ==> s.txns[i].minted.value in s.knownRoles)
  }

  ghost predicate Uncommitted(x: Txn) { x.minted.Some? && !x.phase.Done? }

  /** Generated role ids are new: nobody has asked about them and no table has them until the commit. */
  ghost predicate MintedUnused(s: State) {
    && (forall i :: i in s.txns && Uncommitted(s.txns[i]) ==>
          s.txns[i].minted.value !in s.t.roles && s.txns[i].minted.value !in AssignedRoles(s.t))
    && (forall i, j :: i in s.txns && j in s.txns && Uncommitted(s.txns[i]) && !s.txns[j].req.Create? ==>
          s.txns[j].req.role != s.txns[i].minted.value)
    && (forall i, j :: i in s.txns && j in s.txns && i != j && s.txns[i].minted.Some? ==>
        s.txns[i].minted != s.txns[j].minted)
  }

  ghost predicate FreshInv(s: State) { KnownIds(s) && MintedUnused(s) }

  ghost predicate Inv(w: World, s: State) {
    && LockInv(s) && FreshInv(s)
    && (forall i :: i in s.txns ==> TxnInv(w, s.t, s.txns[i]))
  }

  // ---- A step of one transaction ----------------------------------------------------------------

  lemma StartedInv(w: World, t: Tables, req: Request)
    requires Validated(req)
    ensures TxnInv(w, t, Started(w, t, req))
  {
  }

  lemma ActorStepInv(w: World, t: Tables, sys: Assignments, x: Txn)
    requires TxnInv(w, t, x) && x.phase.ReadActor?
    ensures TxnInv(w, t, ActorStep(w, t, sys, x))
  {
  }

  lemma LockStepInv(w: World, t: Tables, x: Txn)
    requires TxnInv(w, t, x) && x.phase.LockRole?
    ensures TxnInv(w, t, x.(phase := ReadRole, locked := x.req.role in t.roles))
  {
  }

  lemma RoleStepInv(w: World, t: Tables, x: Txn)
    requires TxnInv(w, t, x) && x.phase.ReadRole?
    ensures TxnInv(w, t, RoleStep(t, x))
  {
  }

  lemma ScopeStepInv(w: World, t: Tables, x: Txn)
    requires TxnInv(w, t, x) && x.phase.CheckScope?
    ensures TxnInv(w, t, ScopeStep(t, x))
  {
  }

  lemma UpdateRoleStepInv(w: World, t: Tables, x: Txn, newETag: ETag)
    requires TxnInv(w, t, x) && x.phase.UpdateRole?
    ensures TxnInv(w, t, UpdateRoleStep(w, t, x, newETag))
  {
  }

  lemma IndexStepInv(w: World, t: Tables, x: Txn)
    requires TxnInv(w, t, x) && x.phase.IndexName?
    ensures TxnInv(w, t, IndexStep(t, x))
  {
  }

  lemma DeleteRowsInv(w: World, t: Tables, x: Txn)
    requires TxnInv(w, t, x) && x.phase.DeletePermissions?
    ensures TxnInv(w, t, PermissionRowsStep(w, t, x))
  {
  }

  lemma InsertRowsInv(w: World, t: Tables, x: Txn)
    requires TxnInv(w, t, x) && x.phase.InsertPermissions?
    ensures TxnInv(w, t, PermissionRowsStep(w, t, x))
  {
  }

  /** The set changes exactly when a row is deleted or inserted. */
  lemma ModifyChanges(x: Txn)
    requires x.req.Modify? && x.req.add !! x.req.remove
    ensures NextPerms(x) == x.seen <==> x.seen * x.req.remove == {} && x.req.add - x.seen == {}
  {
    var removed, added := x.seen * x.req.remove, x.req.add - x.seen;
    assert NextPerms(x) == (x.seen - removed) + added;
    if removed == {} && added == {} { assert NextPerms(x) == x.seen; }
    if p :| p in removed { assert p in x.seen && p !in NextPerms(x); }
    if p :| p in added { assert p !in x.seen && p in NextPerms(x); }
  }

  lemma ModifyRowsInv(w: World, t: Tables, x: Txn, newETag: ETag)
    requires TxnInv(w, t, x) && x.phase.ModifyRows?
    ensures TxnInv(w, t, ModifyStep(w, t, x, newETag))
  {
    ModifyChanges(x);
  }

  lemma TouchRoleInv(w: World, t: Tables, x: Txn, newETag: ETag)
    requires TxnInv(w, t, x) && x.phase.TouchRole?
    ensures TxnInv(w, t, ModifyStep(w, t, x, newETag))
  {
  }

  lemma DeleteStepInv(w: World, t: Tables, x: Txn)
    requires TxnInv(w, t, x) && x.req.Delete? && AfterRead(x) && !x.phase.Commit?
    ensures TxnInv(w, t, DeleteStep(t, x))
  {
  }

  lemma AssignStepInv(w: World, t: Tables, x: Txn)
    requires TxnInv(w, t, x) && Assigns(x.req) && (x.phase.Insert? || x.phase.CompleteInsert?)
    ensures TxnInv(w, t, AssignStep(w, t, x))
  {
  }

  lemma InsertStepInv(w: World, t: Tables, x: Txn, newRole: RoleId, newETag: ETag)
    requires TxnInv(w, t, x) && x.phase.Insert? && !Assigns(x.req)
    ensures TxnInv(w, t, InsertStep(w, t, x, newRole, newETag))
  {
  }

  lemma ReadStepInv(w: World, t: Tables, sys: Assignments, x: Txn)
    requires TxnInv(w, t, x) && Reading(x)
    ensures TxnInv(w, t, ReadStep(w, t, sys, x))
  {
    match x.phase
    case ReadActor => ActorStepInv(w, t, sys, x);
    case LockRole => LockStepInv(w, t, x);
    case ReadRole => RoleStepInv(w, t, x);
    case CheckScope => ScopeStepInv(w, t, x);
  }

  lemma SnapshotInv(w: World, t: Tables, x: Txn)
    requires TxnInv(w, t, x) && x.phase.UpdateSnapshot?
    ensures TxnInv(w, t, x.(phase := UpdateRole, snapshot := t))
  {
  }

  lemma BatchStepInv(w: World, t: Tables, x: Txn, newRole: RoleId, newETag: ETag)
    requires TxnInv(w, t, x)
    requires x.phase.UpdateSnapshot? || x.phase.UpdateRole? || x.phase.DeletePermissions? || x.phase.InsertPermissions?
    ensures TxnInv(w, t, WriteStep(w, t, x, newRole, newETag))
  {
    if x.phase.UpdateSnapshot? {
      SnapshotInv(w, t, x);
    } else if x.phase.UpdateRole? {
      UpdateRoleStepInv(w, t, x, newETag);
    } else if x.phase.DeletePermissions? {
      DeleteRowsInv(w, t, x);
    } else {
      InsertRowsInv(w, t, x);
    }
  }

  lemma WriteStepInv(w: World, t: Tables, x: Txn, newRole: RoleId, newETag: ETag)
    requires TxnInv(w, t, x) && !Reading(x) && !x.phase.Done? && !x.phase.Commit? && !x.phase.RollingBack?
    ensures TxnInv(w, t, WriteStep(w, t, x, newRole, newETag))
  {
    if x.phase.IndexName? {
      IndexStepInv(w, t, x);
    } else if x.phase.Insert? && !Assigns(x.req) {
      InsertStepInv(w, t, x, newRole, newETag);
    } else if x.phase.Insert? || x.phase.CompleteInsert? {
      AssignStepInv(w, t, x);
    } else if x.phase.ModifyRows? {
      ModifyRowsInv(w, t, x, newETag);
    } else if x.phase.TouchRole? {
      TouchRoleInv(w, t, x, newETag);
    } else if x.req.Delete? {
      DeleteStepInv(w, t, x);
    } else {
      BatchStepInv(w, t, x, newRole, newETag);
    }
  }

  lemma AdvanceInv(w: World, t: Tables, sys: Assignments, x: Txn, newRole: RoleId, newETag: ETag)
    requires TxnInv(w, t, x) && !x.phase.Done? && !x.phase.Commit? && !x.phase.RollingBack?
    ensures TxnInv(w, t, Advance(w, t, sys, x, newRole, newETag))
  {
    if Reading(x) { ReadStepInv(w, t, sys, x); } else { WriteStepInv(w, t, x, newRole, newETag); }
  }

  // ---- A commit, seen by the other transactions -------------------------------------------------

  /** As far as the holder of the lock of `r` is concerned, nothing happened to it: same row identity,
      same permissions, and no new project assignments. */
  ghost predicate SameRole(t: Tables, t': Tables, r: RoleId) {
    && (r in t.roles <==> r in t'.roles)
    && (r in t.roles ==> t.roles[r].org == t'.roles[r].org && t.roles[r].managed == t'.roles[r].managed)
    && RolePermissions(t, r) == RolePermissions(t', r)
    && (forall a :: a in t'.projectAssignments && a.role == r ==> a in t.projectAssignments)
  }

  lemma CommitLeavesOtherRoles(w: World, t: Tables, x: Txn, r: RoleId)
    requires CommitShape(w, x) && r != Subject(x)
    ensures SameRole(t, Apply(t, x.pending), r)
    ensures r in t.roles ==> Apply(t, x.pending).roles[r] == t.roles[r]
  {
    PermissionsAfter(t, x.pending, r);
  }

  /** A commit never changes which organization owns a role or whether it is managed, and only a
      creation adds one. */
  lemma CommitKeepsRowIdentity(w: World, t: Tables, x: Txn, r: RoleId)
    requires CommitShape(w, x) && r in Apply(t, x.pending).roles
    requires x.req.Create? ==> Subject(x) !in t.roles
    ensures var role := Apply(t, x.pending).roles[r];
      if r in t.roles then role.org == t.roles[r].org && role.managed == t.roles[r].managed
      else x.req.Create? && r == Subject(x) && role.org == x.org && !role.managed
  {
  }

  /** A permission edit commits one replacement: the role ends with exactly the permissions the caller
      computed from what it read, and no other row of the permission table moves. */
  lemma EditCommitsReplacement(w: World, t: Tables, x: Txn)
    requires TxnInv(w, t, x) && x.phase.Commit? && (x.req.Update? || x.req.Modify?)
    ensures var t' := Apply(t, x.pending);
      && t'.rolePerms == (set y | y in t.rolePerms && y.0 != x.req.role) + RowsOf(x.req.role, NextPerms(x))
      && t'.projectAssignments == t.projectAssignments && t'.orgAssignments == t.orgAssignments
      && RolePermissions(t', x.req.role) == NextPerms(x)
  {
    ReplacedRows(t, x.pending, x.req.role, NextPerms(x));
    PermissionsAfter(t, x.pending, x.req.role);
  }

  lemma UnlockedCommitKeepsRole(w: World, t: Tables, x: Txn)
    requires CommitShape(w, x) && !x.req.Create? && !LocksRole(x.req)
    ensures SameRole(t, Apply(t, x.pending), x.req.role)
  {
    PermissionsAfter(t, x.pending, x.req.role);
  }

  lemma CommitWithoutRowKeepsRow(w: World, t: Tables, x: Txn)
    requires CommitShape(w, x) && !x.req.Create? && !x.rowLocked
    ensures Apply(t, x.pending).roles == t.roles
  {
  }

  /** Two transactions never hold the lock or the row of one role, nor ask about an uncommitted creation. */
  ghost predicate Apart(x: Txn, y: Txn) {
    && (!x.req.Create? && !y.req.Create? && x.req.role == y.req.role ==>
          !(x.locked && y.locked) && !(x.rowLocked && y.rowLocked) && !Clash(x, y) && !Clash(y, x))
    && (x.req.Create? && !y.req.Create? && x.minted.Some? ==> x.minted.value != y.req.role)
  }

  lemma InvApart(s: State, i: nat, j: nat)
    requires LockInv(s) && FreshInv(s) && i in s.txns && j in s.txns && i != j && s.txns[i].phase.Commit?
    ensures Apart(s.txns[i], s.txns[j])
  {
  }

  /** What the invariant says about a transaction that is about to end, and about its neighbours. */
  ghost predicate Ready(w: World, s: State, tid: nat)
    requires tid in s.txns
  {
    var x := s.txns[tid];
    && TxnInv(w, s.t, x)
    && (x.phase.Commit? ==> forall j :: j in s.txns && j != tid ==> Apart(x, s.txns[j]))
    && (Uncommitted(x) ==> Subject(x) !in s.t.roles && Subject(x) !in AssignedRoles(s.t))
    && (x.phase.Commit? && x.req.Create? ==> Uncommitted(x))
  }

  lemma InvReady(w: World, s: State, tid: nat)
    requires Inv(w, s) && tid in s.txns
    ensures Ready(w, s, tid)
  {
    var x := s.txns[tid];
    assert TxnInv(w, s.t, x);
    if x.phase.Commit? {
      forall j | j in s.txns && j != tid ensures Apart(x, s.txns[j]) {
        InvApart(s, tid, j);
      }
    }
  }

  /** The guards of transaction `y` survive the commit of another transaction `x`. */
  lemma CommitKeepsOther(w: World, t: Tables, x: Txn, y: Txn)
    requires TxnInv(w, t, x) && TxnInv(w, t, y) && Apart(x, y) && x.phase.Commit?
    ensures var t' := Apply(t, x.pending);
      && TxnInv(w, t', y)
      && (!y.req.Create? && y.locked ==> SameRole(t, t', y.req.role))
      && (!y.req.Create? && y.rowLocked ==> y.req.role in t'.roles && t'.roles[y.req.role] == t.roles[y.req.role])
  {
    if !y.req.Create? {
      if Subject(x) != y.req.role {
        CommitLeavesOtherRoles(w, t, x, y.req.role);
      } else {
        if y.locked { UnlockedCommitKeepsRole(w, t, x); }
        if y.rowLocked || y.shared { CommitWithoutRowKeepsRow(w, t, x); }
        if y.req.role !in t.roles { CommitAddsOnlySubject(w, t, x); }
      }
    }
  }

  lemma CommitAssignsOnlySubject(w: World, t: Tables, x: Txn)
    requires CommitShape(w, x)
    ensures AssignedRoles(Apply(t, x.pending)) <= AssignedRoles(t) + if x.req.Create? then {} else {x.req.role}
  {
  }

  lemma CommitAddsOnlySubject(w: World, t: Tables, x: Txn)
    requires CommitShape(w, x)
    ensures Apply(t, x.pending).roles.Keys <= t.roles.Keys + {Subject(x)}
    ensures !x.req.Create? ==> Apply(t, x.pending).roles.Keys <= t.roles.Keys
  {
    assert x.pending.rows.Keys <= {Subject(x)};
  }

  lemma CommitKeepsRowOwners(w: World, t: Tables, x: Txn)
    requires TxnInv(w, t, x) && x.phase.Commit? && forall y :: y in t.rolePerms ==> y.0 in t.roles
    requires x.req.Create? ==> Subject(x) !in t.roles
    ensures var t' := Apply(t, x.pending); forall y :: y in t'.rolePerms ==> y.0 in t'.roles
  {
    var t' := Apply(t, x.pending);
    forall y | y in t'.rolePerms ensures y.0 in t'.roles {
      assert y == (y.0, y.1);
      PermissionsAfter(t, x.pending, y.0);
      assert y.1 in RolePermissions(t, y.0) <==> y in t.rolePerms;
    }
  }

  // ---- Every action -----------------------------------------------------------------------------

  /** The locks and names a step takes, and when. */
  ghost predicate Takes(w: World, t: Tables, x: Txn, x': Txn, newRole: RoleId) {
    && x'.req == x.req
    && (x'.locked && !x.locked ==> x.phase.LockRole? && !x.req.Create? && x.req.role in t.roles)
    && (x'.rowLocked && !x.rowLocked ==> WritesRoleRow(x) && !x.req.Create?)
    && (x'.shared && !x.shared ==> SharesRoleRow(w, t, x))
    && (x'.named && !x.named ==>
          x.phase.IndexName? && NamesRole(x.req) && !NameTaken(t, x.org, WantedName(x.req), Subject(x)))
    && (x'.minted == x.minted || (x.phase.Insert? && x'.minted == Some(newRole)))
    && (x.req.Create? && x'.phase.Commit? ==> x.phase.IndexName?)
  }

  lemma ReadTakes(w: World, t: Tables, sys: Assignments, x: Txn, newRole: RoleId)
    requires PhaseFits(x)
    ensures x.phase.ReadActor? ==> Takes(w, t, x, ActorStep(w, t, sys, x), newRole)
    ensures x.phase.CheckScope? ==> Takes(w, t, x, ScopeStep(t, x), newRole)
  {
  }

  lemma RoleTakes(w: World, t: Tables, x: Txn, newRole: RoleId)
    requires PhaseFits(x) && x.phase.ReadRole?
    ensures Takes(w, t, x, RoleStep(t, x), newRole)
  {
  }

  lemma UpdateTakes(w: World, t: Tables, x: Txn, newRole: RoleId, newETag: ETag)
    requires PhaseFits(x)
    ensures x.phase.UpdateRole? ==> Takes(w, t, x, UpdateRoleStep(w, t, x, newETag), newRole)
    ensures x.phase.IndexName? ==> Takes(w, t, x, IndexStep(t, x), newRole)
  {
  }

  lemma PermissionRowsTake(w: World, t: Tables, x: Txn, newRole: RoleId)
    requires PhaseFits(x) && (x.phase.DeletePermissions? || x.phase.InsertPermissions?)
    ensures Takes(w, t, x, PermissionRowsStep(w, t, x), newRole)
  {
  }

  lemma EditTakes(w: World, t: Tables, x: Txn, newRole: RoleId, newETag: ETag)
    requires PhaseFits(x)
    ensures x.phase.ModifyRows? || x.phase.TouchRole? ==> Takes(w, t, x, ModifyStep(w, t, x, newETag), newRole)
    ensures x.req.Delete? && AfterRead(x) && !x.phase.Commit? ==> Takes(w, t, x, DeleteStep(t, x), newRole)
  {
  }

  lemma InsertTakes(w: World, t: Tables, x: Txn, newRole: RoleId, newETag: ETag)
    requires PhaseFits(x) && (x.phase.Insert? || x.phase.CompleteInsert?)
    ensures Takes(w, t, x, if Assigns(x.req) then AssignStep(w, t, x) else InsertStep(w, t, x, newRole, newETag),
                  newRole)
  {
  }

  lemma WriteTakes(w: World, t: Tables, x: Txn, newRole: RoleId, newETag: ETag)
    requires PhaseFits(x) && !Reading(x) && !x.phase.Done? && !x.phase.Commit? && !x.phase.RollingBack?
    ensures Takes(w, t, x, WriteStep(w, t, x, newRole, newETag), newRole)
  {
    if x.phase.Insert? || x.phase.CompleteInsert? {
      InsertTakes(w, t, x, newRole, newETag);
    } else if x.req.Modify? || x.req.Delete? {
      EditTakes(w, t, x, newRole, newETag);
    } else if x.phase.DeletePermissions? || x.phase.InsertPermissions? {
      PermissionRowsTake(w, t, x, newRole);
    } else {
      UpdateTakes(w, t, x, newRole, newETag);
    }
  }

  lemma AdvanceTakes(w: World, t: Tables, sys: Assignments, x: Txn, newRole: RoleId, newETag: ETag)
    requires PhaseFits(x) && !x.phase.Done? && !x.phase.Commit? && !x.phase.RollingBack?
    ensures Takes(w, t, x, Advance(w, t, sys, x, newRole, newETag), newRole)
  {
    if x.phase.ReadRole? {
      RoleTakes(w, t, x, newRole);
    } else if Reading(x) {
      ReadTakes(w, t, sys, x, newRole);
    } else {
      WriteTakes(w, t, x, newRole, newETag);
    }
  }

  /** No other call has a say in whether the organization has a role of this name. */
  ghost predicate NameFree(s: State, tid: nat, org: OrgId, name: string) {
    forall j :: j in s.txns && j != tid ==> !HoldsName(s.t, s.txns[j], org, name)
  }

  ghost predicate NotShared(s: State, r: RoleId) {
    forall j :: j in s.txns && s.txns[j].shared && !s.txns[j].req.Create? ==> s.txns[j].req.role != r
  }

  ghost predicate AdvancedState(s: State, a: Action, s': State, x': Txn)
    requires a.Step? && a.tid in s.txns
  {
    var x := s.txns[a.tid];
    && s'.roleLock == (if x'.locked && !x.locked && !x.req.Create? then s.roleLock[x.req.role := a.tid] else s.roleLock)
    && s'.rowLock == (if x'.rowLocked && !x.rowLocked && !x.req.Create? then s.rowLock[x.req.role := a.tid]
                      else s.rowLock)
    && s'.txns == s.txns[a.tid := x']
    && s'.t == s.t && s'.sys == s.sys && s'.content == s.content
    && s'.knownRoles == s.knownRoles + {a.newRole} && s'.knownETags == s.knownETags + {a.newETag}
  }

  /** Transaction `a.tid` takes a step of its own and becomes `x'`; nothing is committed. */
  ghost predicate Advanced(w: World, s: State, a: Action, s': State, x': Txn) {
    && a.Step? && a.tid in s.txns
    && (var x := s.txns[a.tid];
        && !x.phase.Commit? && !x.phase.RollingBack? && !x.phase.Done?
        && x'.req == x.req && TxnInv(w, s.t, x')
        && a.newRole !in s.knownRoles && a.newETag !in s.knownETags
        && (x'.locked && !x.locked ==> LocksRole(x.req) && x.req.role !in s.roleLock)
        && (x'.rowLocked && !x.rowLocked ==> !x.req.Create? && x.req.role !in s.rowLock && NotShared(s, x.req.role))
        && (x'.shared && !x.shared ==> !x.req.Create? && x.req.role !in s.rowLock)
        && (x'.named && !x.named ==>
              && x.phase.IndexName? && NamesRole(x.req) && !NameTaken(s.t, x.org, WantedName(x.req), Subject(x))
              && NameFree(s, a.tid, x.org, WantedName(x.req)))
        && (x'.minted == x.minted || x'.minted == Some(a.newRole))
        && (Uncommitted(x') ==> (Uncommitted(x) && x'.minted == x.minted) || x'.minted == Some(a.newRole)))
    && AdvancedState(s, a, s', x')
  }

  /** Transaction `a.tid` ends, by committing its rows or by rolling back. */
  ghost predicate Ended(s: State, a: Action, s': State) {
    && a.Step? && a.tid in s.txns
    && (var x := s.txns[a.tid];
        && (x.phase.Commit? || x.phase.RollingBack?)
        && s'.txns.Keys == s.txns.Keys
        && (forall j :: j in s.txns && j != a.tid ==> s'.txns[j] == s.txns[j])
        && (var x' := s'.txns[a.tid];
            && x'.phase.Done?
            && x' == x.(phase := x'.phase, locked := false, rowLocked := false, shared := false, named := false))
        && s'.t == (if x.phase.Commit? then Apply(s.t, x.pending) else s.t)
        && s'.content == (if x.phase.Commit? then s.content + NewContent(s.t, x.pending, Subject(x)) else s.content))
    && a.newRole !in s.knownRoles && a.newETag !in s.knownETags
    && s'.sys == s.sys && s'.roleLock == Without(s.roleLock, a.tid) && s'.rowLock == Without(s.rowLock, a.tid)
    && s'.knownRoles == s.knownRoles + {a.newRole} && s'.knownETags == s.knownETags + {a.newETag}
  }

  lemma AdvanceTxnMoves(w: World, s: State, a: Action)
    requires a.Step? && a.tid in s.txns && PhaseFits(s.txns[a.tid])
    ensures AdvancedState(s, a,
      AdvanceTxn(w, s, a.tid, a.newRole, a.newETag).(
        knownRoles := s.knownRoles + {a.newRole}, knownETags := s.knownETags + {a.newETag}),
      Advance(w, s.t, s.sys, s.txns[a.tid], a.newRole, a.newETag))
  {
  }

  lemma StepMoves(w: World, s: State, a: Action)
    requires a.Step? && Enabled(w, s, a)
    requires !s.txns[a.tid].phase.Commit? && !s.txns[a.tid].phase.RollingBack?
    ensures AdvancedState(s, a, Next(w, s, a), Advance(w, s.t, s.sys, s.txns[a.tid], a.newRole, a.newETag))
  {
    AdvanceTxnMoves(w, s, a);
    assert Next(w, s, a) == AdvanceTxn(w, s, a.tid, a.newRole, a.newETag).(
      knownRoles := s.knownRoles + {a.newRole}, knownETags := s.knownETags + {a.newETag});
  }

  lemma StepAdvances(w: World, s: State, a: Action)
    requires a.Step? && Enabled(w, s, a) && TxnInv(w, s.t, s.txns[a.tid])
    requires !s.txns[a.tid].phase.Commit? && !s.txns[a.tid].phase.RollingBack?
    ensures Advanced(w, s, a, Next(w, s, a), Advance(w, s.t, s.sys, s.txns[a.tid], a.newRole, a.newETag))
  {
    AdvanceInv(w, s.t, s.sys, s.txns[a.tid], a.newRole, a.newETag);
    AdvanceTakes(w, s.t, s.sys, s.txns[a.tid], a.newRole, a.newETag);
    StepMoves(w, s, a);
  }

  lemma StepEnds(w: World, s: State, a: Action)
    requires a.Step? && Enabled(w, s, a)
    requires s.txns[a.tid].phase.Commit? || s.txns[a.tid].phase.RollingBack?
    ensures Ended(s, a, Next(w, s, a))
  {
  }

  lemma LocksAfterAdvance(w: World, s: State, a: Action, s': State, x': Txn)
    requires LockInv(s) && Advanced(w, s, a, s', x')
    ensures LockInv(s')
  {
  }

  lemma LocksAfterEnd(s: State, a: Action, s': State)
    requires LockInv(s) && Ended(s, a, s')
    ensures LockInv(s')
  {
  }

  lemma FreshAfterAdvance(w: World, s: State, a: Action, s': State, x': Txn)
    requires FreshInv(s) && Advanced(w, s, a, s', x')
    ensures FreshInv(s')
  {
  }

  lemma KnownAfterEnd(w: World, s: State, a: Action, s': State)
    requires FreshInv(s) && Ended(s, a, s') && TxnInv(w, s.t, s.txns[a.tid])
    ensures KnownIds(s')
  {
    var x := s.txns[a.tid];
    if x.phase.Commit? {
      CommitAddsOnlySubject(w, s.t, x);
      CommitAssignsOnlySubject(w, s.t, x);
    }
  }

  lemma MintedAfterEnd(w: World, s: State, a: Action, s': State)
    requires FreshInv(s) && Ended(s, a, s') && TxnInv(w, s.t, s.txns[a.tid])
    ensures MintedUnused(s')
  {
    var x := s.txns[a.tid];
    if x.phase.Commit? {
      CommitAddsOnlySubject(w, s.t, x);
      CommitAssignsOnlySubject(w, s.t, x);
    }
    forall j | j in s'.txns && Uncommitted(s'.txns[j])
      ensures s'.txns[j].minted.value !in s'.t.roles && s'.txns[j].minted.value !in AssignedRoles(s'.t)
    {
      assert j != a.tid && Uncommitted(s.txns[j]);
      if x.req.Create? { assert x.minted.Some? ==> s.txns[j].minted != x.minted; }
    }
  }

  lemma FreshAfterEnd(w: World, s: State, a: Action, s': State)
    requires FreshInv(s) && Ended(s, a, s') && TxnInv(w, s.t, s.txns[a.tid])
    ensures FreshInv(s')
  {
    KnownAfterEnd(w, s, a, s');
    MintedAfterEnd(w, s, a, s');
  }

  lemma AdvancedKeepsInv(w: World, s: State, a: Action, s': State, x': Txn)
    requires Inv(w, s) && Advanced(w, s, a, s', x')
    ensures Inv(w, s')
  {
    LocksAfterAdvance(w, s, a, s', x');
    FreshAfterAdvance(w, s, a, s', x');
    forall j | j in s'.txns ensures TxnInv(w, s'.t, s'.txns[j]) {
      assert j != a.tid ==> s'.txns[j] == s.txns[j];
    }
  }

  lemma DoneInv(w: World, t: Tables, t': Tables, x: Txn, x': Txn)
    requires TxnInv(w, t, x) && (x.phase.Commit? || x.phase.RollingBack?)
    requires x' == x.(phase := x'.phase, locked := false, rowLocked := false, shared := false, named := false)
    requires x'.phase.Done?
    ensures TxnInv(w, t', x')
  {
  }

  lemma EndedKeepsTxn(w: World, s: State, a: Action, s': State, j: nat)
    requires Ended(s, a, s') && j in s.txns
    requires TxnInv(w, s.t, s.txns[a.tid]) && TxnInv(w, s.t, s.txns[j])
    requires j != a.tid && s.txns[a.tid].phase.Commit? ==> Apart(s.txns[a.tid], s.txns[j])
    ensures TxnInv(w, s'.t, s'.txns[j])
  {
    if j == a.tid {
      DoneInv(w, s.t, s'.t, s.txns[j], s'.txns[j]);
    } else if s.txns[a.tid].phase.Commit? {
      CommitKeepsOther(w, s.t, s.txns[a.tid], s.txns[j]);
    }
  }

  lemma EndedKeepsTxns(w: World, s: State, a: Action, s': State)
    requires Inv(w, s) && Ended(s, a, s')
    ensures forall j :: j in s'.txns ==> TxnInv(w, s'.t, s'.txns[j])
  {
    forall j | j in s'.txns ensures TxnInv(w, s'.t, s'.txns[j]) {
      if j != a.tid && s.txns[a.tid].phase.Commit? { InvApart(s, a.tid, j); }
      EndedKeepsTxn(w, s, a, s', j);
    }
  }

  lemma EndedKeepsInv(w: World, s: State, a: Action, s': State)
    requires Inv(w, s) && Ended(s, a, s')
    ensures Inv(w, s')
  {
    assert TxnInv(w, s.t, s.txns[a.tid]);
    LocksAfterEnd(s, a, s');
    FreshAfterEnd(w, s, a, s');
    EndedKeepsTxns(w, s, a, s');
  }

  /** A new transaction asks about a role that is not somebody's uncommitted creation. */
  ghost predicate Begun(w: World, s: State, a: Action, s': State) {
    && a.Begin? && a.tid !in s.txns && Validated(a.req)
    && s' == s.(txns := s.txns[a.tid := Started(w, s.t, a.req)],
                knownRoles := s.knownRoles + if a.req.Create? then {} else {a.req.role})
    && (!a.req.Create? ==> forall i :: i in s.txns && s.txns[i].minted == Some(a.req.role) ==> s.txns[i].phase.Done?)
  }

  lemma FreshAfterBegin(w: World, s: State, a: Action, s': State)
    requires FreshInv(s) && Begun(w, s, a, s')
    ensures FreshInv(s')
  {
  }

  lemma BegunKeepsLocks(w: World, s: State, a: Action, s': State)
    requires LockInv(s) && Begun(w, s, a, s')
    ensures LockInv(s')
  {
    assert !s'.txns[a.tid].locked && !s'.txns[a.tid].rowLocked && !s'.txns[a.tid].shared;
    forall i, j | i in s'.txns && j in s'.txns && i != j ensures !Clash(s'.txns[i], s'.txns[j]) {
      if i != a.tid && j != a.tid { assert !Clash(s.txns[i], s.txns[j]); }
    }
  }

  lemma BegunKeepsInv(w: World, s: State, a: Action, s': State)
    requires Inv(w, s) && Begun(w, s, a, s')
    ensures Inv(w, s')
  {
    BegunKeepsLocks(w, s, a, s');
    FreshAfterBegin(w, s, a, s');
    StartedInv(w, s.t, a.req);
    forall j | j in s'.txns ensures TxnInv(w, s'.t, s'.txns[j]) {
      assert j != a.tid ==> s'.txns[j] == s.txns[j];
    }
  }

  /** A call fails: it will roll back, and holds its locks until then. */
  ghost predicate Dropped(s: State, a: Action, s': State) {
    && a.Cancel? && a.tid in s.txns && !s.txns[a.tid].phase.Done?
    && s' == s.(txns := s.txns[a.tid := Fail(s.txns[a.tid], Cancelled)])
  }

  lemma FailInv(w: World, t: Tables, x: Txn, e: CustomRoleProtocol.Error)
    requires TxnInv(w, t, x) && !x.phase.Done?
    ensures TxnInv(w, t, Fail(x, e))
  {
  }

  lemma DroppedKeepsLocks(s: State, a: Action, s': State)
    requires LockInv(s) && Dropped(s, a, s')
    ensures LockInv(s')
  {
    var x' := Fail(s.txns[a.tid], Cancelled);
    assert x'.req == s.txns[a.tid].req && x'.locked == s.txns[a.tid].locked && x'.rowLocked == s.txns[a.tid].rowLocked;
    forall i, j | i in s'.txns && j in s'.txns && i != j ensures !Clash(s'.txns[i], s'.txns[j]) {
      assert !Clash(s.txns[i], s.txns[j]);
    }
  }

  lemma DroppedKeepsFresh(s: State, a: Action, s': State)
    requires FreshInv(s) && Dropped(s, a, s')
    ensures FreshInv(s')
  {
    forall j | j in s'.txns ensures s'.txns[j].req == s.txns[j].req && s'.txns[j].minted == s.txns[j].minted {
      assert j != a.tid ==> s'.txns[j] == s.txns[j];
    }
  }

  lemma DroppedKeepsInv(w: World, s: State, a: Action, s': State)
    requires Inv(w, s) && Dropped(s, a, s')
    ensures Inv(w, s')
  {
    DroppedKeepsLocks(s, a, s');
    DroppedKeepsFresh(s, a, s');
    FailInv(w, s.t, s.txns[a.tid], Cancelled);
    forall j | j in s'.txns ensures TxnInv(w, s'.t, s'.txns[j]) {
      assert j != a.tid ==> s'.txns[j] == s.txns[j];
    }
  }

  /** An organization is created, with its managed role in the hands of the creator. */
  ghost predicate Founded(w: World, s: State, a: Action, s': State) {
    && a.CreateOrganization? && a.newRole !in s.knownRoles && a.newETag !in s.knownETags
    && (forall j :: j in s.txns ==> !HoldsName(s.t, s.txns[j], a.org, ADMINISTRATOR_NAME))
    && !NameTaken(s.t, a.org, ADMINISTRATOR_NAME, a.newRole)
    && a.org in w.orgs && w.env.registry >= ToSet(OrganizationAdminPermissions())
    && (var d := BootstrapRows(a.org, a.creator, a.newRole, a.newETag);
        s' == s.(t := Apply(s.t, d), content := s.content + NewContent(s.t, d, a.newRole),
                 knownRoles := s.knownRoles + {a.newRole}, knownETags := s.knownETags + {a.newETag}))
  }

  /** The new role is the only one that the bootstrap concerns. */
  lemma FoundingLeavesOtherRoles(t: Tables, org: OrgId, creator: UUID, id: RoleId, etag: ETag, r: RoleId)
    requires r != id
    ensures var t' := Apply(t, BootstrapRows(org, creator, id, etag));
      SameRole(t, t', r) && (r in t.roles ==> t'.roles[r] == t.roles[r])
  {
    PermissionsAfter(t, BootstrapRows(org, creator, id, etag), r);
  }

  lemma SameRoleKeepsTxn(w: World, t: Tables, t': Tables, y: Txn)
    requires TxnInv(w, t, y)
    requires !y.req.Create? ==> SameRole(t, t', y.req.role)
    requires !y.req.Create? && y.req.role in t.roles ==> t'.roles[y.req.role] == t.roles[y.req.role]
    ensures TxnInv(w, t', y)
  {
  }

  lemma FoundedTables(w: World, s: State, a: Action, s': State)
    requires Founded(w, s, a, s')
    ensures s'.t.roles.Keys == s.t.roles.Keys + {a.newRole}
    ensures AssignedRoles(s'.t) <= AssignedRoles(s.t) + {a.newRole}
  {
  }

  lemma FoundedKeepsFresh(w: World, s: State, a: Action, s': State)
    requires FreshInv(s) && Founded(w, s, a, s')
    ensures FreshInv(s')
  {
    FoundedTables(w, s, a, s');
    FreshBeside(s, s', a.newRole);
  }

  lemma FreshBeside(s: State, s': State, newRole: RoleId)
    requires FreshInv(s) && newRole !in s.knownRoles && s'.knownRoles == s.knownRoles + {newRole}
    requires s'.txns == s.txns && s'.t.roles.Keys == s.t.roles.Keys + {newRole}
    requires AssignedRoles(s'.t) <= AssignedRoles(s.t) + {newRole}
    ensures FreshInv(s')
  {
  }

  lemma FoundedKeepsInv(w: World, s: State, a: Action, s': State)
    requires Inv(w, s) && Founded(w, s, a, s')
    ensures Inv(w, s')
  {
    FoundedKeepsFresh(w, s, a, s');
    forall j | j in s'.txns ensures TxnInv(w, s'.t, s'.txns[j]) {
      if !s.txns[j].req.Create? {
        FoundingLeavesOtherRoles(s.t, a.org, a.creator, a.newRole, a.newETag, s.txns[j].req.role);
      }
      SameRoleKeepsTxn(w, s.t, s'.t, s.txns[j]);
    }
  }

  /** Every enabled action is one of these moves. */
  ghost predicate Move(w: World, s: State, a: Action, s': State) {
    match a
    case Begin(_, _) => Begun(w, s, a, s')
    case System(call) => !call.Bootstrap? && s' == s.(sys := Atomic(w.env, s.sys, call).0)
    case Cancel(_) => Dropped(s, a, s')
    case CreateOrganization(_, _, _, _) => Founded(w, s, a, s')
    case Step(tid, newRole, newETag) =>
      && tid in s.txns
      && (Ended(s, a, s') || (TxnInv(w, s.t, s.txns[tid]) && AdvancedBy(w, s, a, s')))
  }

  ghost predicate AdvancedBy(w: World, s: State, a: Action, s': State)
    requires a.Step? && a.tid in s.txns && TxnInv(w, s.t, s.txns[a.tid])
  {
    Advanced(w, s, a, s', Advance(w, s.t, s.sys, s.txns[a.tid], a.newRole, a.newETag))
  }

  lemma NextMoves(w: World, s: State, a: Action)
    requires Inv(w, s) && Enabled(w, s, a)
    ensures Move(w, s, a, Next(w, s, a))
  {
    if a.Step? {
      assert TxnInv(w, s.t, s.txns[a.tid]);
      if s.txns[a.tid].phase.Commit? || s.txns[a.tid].phase.RollingBack? {
        StepEnds(w, s, a);
      } else {
        StepAdvances(w, s, a);
      }
    }
  }

  lemma MoveKeepsInv(w: World, s: State, a: Action, s': State)
    requires Inv(w, s) && Move(w, s, a, s')
    ensures Inv(w, s')
  {
    match a
    case Begin(_, _) => BegunKeepsInv(w, s, a, s');
    case System(_) =>
    case Cancel(_) => DroppedKeepsInv(w, s, a, s');
    case CreateOrganization(_, _, _, _) => FoundedKeepsInv(w, s, a, s');
    case Step(tid, newRole, newETag) =>
      if Ended(s, a, s') {
        EndedKeepsInv(w, s, a, s');
      } else {
        AdvancedKeepsInv(w, s, a, s', Advance(w, s.t, s.sys, s.txns[tid], newRole, newETag));
      }
  }
}
