/** Which error a call meets at its write, in any interleaving, and exactly when. core/rbac/custom_role.go
    calls a missing row impossible once the role has been read under its lock, and does not expect a delete
    or an assignment to violate a foreign key; other calls that take no role lock make both happen. */
module CustomRoleErrors {
  import opened Permissions
  import opened SystemRoles
  import opened CustomRoleTables
  import opened CustomRoleProtocol
  import opened CustomRoleInvariants
  import CustomRoleAuthority
  import opened CustomRoleForeignKeys

  ghost predicate RegisteredRows(w: World, t: Tables) {
    forall x :: x in t.rolePerms ==> x.1 in w.env.registry
  }

  ghost predicate TxnRegistered(w: World, x: Txn) {
    && x.held <= w.env.registry
    && ((x.req.Update? || x.req.Modify?) && AfterRead(x) ==> NextPerms(x) <= w.env.registry)
  }

  /** A statement's snapshot cannot miss a role that its call names and that is there: an id is known to
      nobody before its role is committed. */
  ghost predicate SnapshotKnows(w: World, t: Tables, x: Txn) {
    && (x.phase.UpdateRole? || x.phase.CompleteInsert? ==>
          !x.req.Create? && (x.req.role in t.roles ==> Owns(x.snapshot, t.roles[x.req.role].org, x.req.role)))
    && (x.phase.CompleteInsert? ==> Assigns(x.req) && Selected(w, x))
  }

  /** The SELECT of the assignment has found its role, its user and the membership. */
  ghost predicate Selected(w: World, x: Txn)
    requires Assigns(x.req)
  {
    AssignStatement(w, x.snapshot, x.snapshot, x).error != Some(NoRows)
  }

  ghost predicate TxnErrors(w: World, t: Tables, x: Txn) { TxnRegistered(w, x) && SnapshotKnows(w, t, x) }

  lemma ActorRegistered(w: World, t: Tables, sys: Assignments, x: Txn)
    requires w.env.Valid() && RegisteredRows(w, t) && TxnRegistered(w, x) && x.phase.ReadActor?
    ensures TxnRegistered(w, ActorStep(w, t, sys, x))
  {
  }

  lemma NextRegistered(w: World, t: Tables, x: Txn)
    requires RegisteredRows(w, t) && TxnRegistered(w, x) && x.phase.ReadRole? && (x.req.Update? || x.req.Modify?)
    requires AfterRead(RoleStep(t, x))
    ensures NextPerms(RoleStep(t, x)) <= w.env.registry
  {
    var x' := RoleStep(t, x);
    forall p | p in NextPerms(x') ensures p in w.env.registry {
      if p !in x'.seen { assert p in Changed(x'.seen, NextPerms(x')); }
    }
  }

  lemma RoleRegistered(w: World, t: Tables, x: Txn)
    requires RegisteredRows(w, t) && TxnRegistered(w, x) && x.phase.ReadRole?
    ensures TxnRegistered(w, RoleStep(t, x))
  {
    if (x.req.Update? || x.req.Modify?) && AfterRead(RoleStep(t, x)) { NextRegistered(w, t, x); }
  }

  lemma AdvanceRegistered(w: World, t: Tables, sys: Assignments, x: Txn, newRole: RoleId, newETag: ETag)
    requires w.env.Valid() && RegisteredRows(w, t) && TxnInv(w, t, x) && TxnRegistered(w, x)
    requires !x.phase.Done? && !x.phase.Commit? && !x.phase.RollingBack?
    ensures TxnRegistered(w, Advance(w, t, sys, x, newRole, newETag))
  {
    if x.phase.ReadActor? {
      ActorRegistered(w, t, sys, x);
    } else if x.phase.ReadRole? {
      RoleRegistered(w, t, x);
    }
  }

  lemma AdvanceKnows(w: World, t: Tables, sys: Assignments, x: Txn, newRole: RoleId, newETag: ETag)
    requires TxnInv(w, t, x) && SnapshotKnows(w, t, x)
    requires !x.phase.Done? && !x.phase.Commit? && !x.phase.RollingBack?
    ensures SnapshotKnows(w, t, Advance(w, t, sys, x, newRole, newETag))
  {
  }

  lemma CommitRegistered(w: World, t: Tables, x: Txn)
    requires RegisteredRows(w, t) && TxnInv(w, t, x) && TxnRegistered(w, x) && x.phase.Commit?
    ensures RegisteredRows(w, Apply(t, x.pending))
  {
  }

  lemma CommitKeepsKnowing(w: World, t: Tables, x: Txn, y: Txn)
    requires TxnInv(w, t, x) && x.phase.Commit? && Apart(x, y) && SnapshotKnows(w, t, y)
    requires x.req.Create? ==> Subject(x) !in t.roles && x.minted.Some?
    ensures SnapshotKnows(w, Apply(t, x.pending), y)
  {
    if !y.req.Create? && y.req.role in Apply(t, x.pending).roles {
      CommitKeepsRowIdentity(w, t, x, y.req.role);
    }
  }

  ghost predicate ErrorsInv(w: World, s: State) {
    && w.env.Valid() && RegisteredRows(w, s.t)
    && (forall i :: i in s.txns ==> TxnErrors(w, s.t, s.txns[i]))
  }

  lemma EndedKeepsTxnErrors(w: World, s: State, a: Action, s': State, j: nat)
    requires Ended(s, a, s') && Ready(w, s, a.tid) && j in s.txns && TxnErrors(w, s.t, s.txns[j])
    ensures TxnErrors(w, s'.t, s'.txns[j])
  {
    if j != a.tid && s.txns[a.tid].phase.Commit? { CommitKeepsKnowing(w, s.t, s.txns[a.tid], s.txns[j]); }
  }

  lemma EndedKeepsErrors(w: World, s: State, a: Action, s': State)
    requires ErrorsInv(w, s) && Ended(s, a, s') && Ready(w, s, a.tid)
    ensures ErrorsInv(w, s')
  {
    assert TxnErrors(w, s.t, s.txns[a.tid]);
    if s.txns[a.tid].phase.Commit? { CommitRegistered(w, s.t, s.txns[a.tid]); }
    forall j | j in s'.txns ensures TxnErrors(w, s'.t, s'.txns[j]) {
      EndedKeepsTxnErrors(w, s, a, s', j);
    }
  }

  lemma AdvancedKeepsErrors(w: World, s: State, a: Action, s': State)
    requires ErrorsInv(w, s) && a.Step? && a.tid in s.txns && TxnInv(w, s.t, s.txns[a.tid]) && AdvancedBy(w, s, a, s')
    ensures ErrorsInv(w, s')
  {
    assert TxnErrors(w, s.t, s.txns[a.tid]);
    AdvanceRegistered(w, s.t, s.sys, s.txns[a.tid], a.newRole, a.newETag);
    AdvanceKnows(w, s.t, s.sys, s.txns[a.tid], a.newRole, a.newETag);
  }

  lemma FoundedKeepsErrors(w: World, s: State, a: Action, s': State)
    requires ErrorsInv(w, s) && FreshInv(s) && Founded(w, s, a, s')
    ensures ErrorsInv(w, s')
  {
    forall j | j in s'.txns ensures TxnErrors(w, s'.t, s'.txns[j]) {
      assert TxnErrors(w, s.t, s.txns[j]);
      if !s.txns[j].req.Create? { assert s.txns[j].req.role != a.newRole; }
    }
  }

  lemma BegunKeepsErrors(w: World, s: State, a: Action, s': State)
    requires ErrorsInv(w, s) && Begun(w, s, a, s')
    ensures ErrorsInv(w, s')
  {
    forall j | j in s'.txns ensures TxnErrors(w, s'.t, s'.txns[j]) {
      assert j != a.tid ==> s'.txns[j] == s.txns[j];
    }
  }

  lemma DroppedKeepsErrors(w: World, s: State, a: Action, s': State)
    requires ErrorsInv(w, s) && Dropped(s, a, s')
    ensures ErrorsInv(w, s')
  {
    forall j | j in s'.txns ensures TxnErrors(w, s'.t, s'.txns[j]) {
      assert TxnErrors(w, s.t, s.txns[j]);
    }
  }

  lemma MoveKeepsErrors(w: World, s: State, a: Action, s': State)
    requires Inv(w, s) && ErrorsInv(w, s) && Move(w, s, a, s')
    ensures ErrorsInv(w, s')
  {
    match a
    case Begin(_, _) => BegunKeepsErrors(w, s, a, s');
    case System(_) =>
    case Cancel(_) => DroppedKeepsErrors(w, s, a, s');
    case CreateOrganization(_, _, _, _) => FoundedKeepsErrors(w, s, a, s');
    case Step(tid, _, _) =>
      if Ended(s, a, s') {
        InvReady(w, s, tid);
        EndedKeepsErrors(w, s, a, s');
      } else {
        AdvancedKeepsErrors(w, s, a, s');
      }
  }

  lemma {:induction false} RunKeepsErrors(w: World, s: State, actions: seq<Action>)
    requires Inv(w, s) && ErrorsInv(w, s)
    ensures Inv(w, Run(w, s, actions)) && ErrorsInv(w, Run(w, s, actions))
    decreases |actions|
  {
    if actions != [] {
      if Enabled(w, s, actions[0]) {
        NextMoves(w, s, actions[0]);
        MoveKeepsInv(w, s, actions[0], Next(w, s, actions[0]));
        MoveKeepsErrors(w, s, actions[0], Next(w, s, actions[0]));
        RunKeepsErrors(w, Next(w, s, actions[0]), actions[1..]);
      } else {
        RunKeepsErrors(w, s, actions[1..]);
      }
    }
  }

  // ---- The write of a call ------------------------------------------------------------------------

  predicate Writing(x: Txn) {
    x.phase.UpdateRole? || x.phase.ModifyRows? || x.phase.DeleteRole? || x.phase.CompleteInsert?
  }

  /** What the statement that writes reports if it completes now. */
  function WriteError(w: World, t: Tables, x: Txn): Option<DbError>
    requires PhaseFits(x) && Writing(x)
  {
    if x.phase.UpdateRole? then
      UpdateRowStatement(w, x.snapshot, t, x.org, x.req.role, x.req.etag, x.req.newName,
                         if x.req.Update? then Some(x.req.perms) else None, 0).error
    else if x.phase.ModifyRows? then
      ModifyStatement(w, t, x.org, x.req.role, x.req.etag, x.req.add, x.req.remove, 0).error
    else if x.phase.DeleteRole? then DeleteRoleStatement(Apply(t, x.pending), x.org, x.req.role).error
    else AssignStatement(w, x.snapshot, t, x).error
  }

  /** An assignment in the organization was committed after the delete had deleted those it saw. */
  ghost predicate AssignedSince(t: Tables, x: Txn)
    requires !x.req.Create?
  {
    exists a :: a in t.orgAssignments && a.role == x.req.role && a !in x.snapshot.orgAssignments
  }

  /** The assignment's row. */
  ghost predicate RowIsThere(t: Tables, x: Txn) {
    match x.req
    case AssignToProject(_, project, target, r) => ProjectAssignment(target, project, r) in t.projectAssignments
    case AssignToOrg(_, _, target, r) => OrgAssignment(target, x.org, r) in t.orgAssignments
    case _ => false
  }

  /** The errors of a write to a role that is there, each with the only way it comes about. */
  ghost predicate ExactErrors(w: World, t: Tables, x: Txn)
    requires PhaseFits(x) && Writing(x) && !x.req.Create?
  {
    var e, r := WriteError(w, t, x), x.req.role;
    match x.phase
    case UpdateRole =>
      Owns(t, x.org, r) ==>
        && r in x.snapshot.roles
        // Told that the role does not exist: its ETag was renewed while the statement was waiting.
        && (e == Some(NoRows) <==> x.snapshot.roles[r].etag == x.req.etag && t.roles[r].etag != x.req.etag)
        // Told that it has changed: it had when the statement began.
        && (e == Some(ETagMismatch) <==> x.snapshot.roles[r].etag != x.req.etag)
        && e != Some(ForeignKeyViolation)
    case ModifyRows =>
      && r in t.roles
      && (x.req.remove <= w.env.registry ==> e == if t.roles[r].etag == x.req.etag then None else Some(ETagMismatch))
    case DeleteRole =>
      // The delete fails exactly when somebody has been given the role in the meantime.
      && r in t.roles
      && e == if AssignedSince(t, x) then Some(ForeignKeyViolation) else None
    case _ =>
      // An assignment in a project cannot lose its role; one in the organization can.
      && (x.req.AssignToProject? ==> r in t.roles && e != Some(ForeignKeyViolation))
      && (x.req.AssignToOrg? ==> (e == Some(ForeignKeyViolation) <==> r !in t.roles))
      && e != Some(NoRows)
      // Told that it is there already: it is, in the tables that the row goes into.
      && (e == Some(UniqueViolation) <==> RowIsThere(t, x))
  }

  lemma UpdateErrors(w: World, t: Tables, x: Txn)
    requires TxnInv(w, t, x) && TxnErrors(w, t, x) && x.phase.UpdateRole?
    ensures ExactErrors(w, t, x)
  {
  }

  lemma ModifyErrors(w: World, t: Tables, x: Txn)
    requires TxnInv(w, t, x) && TxnErrors(w, t, x) && x.phase.ModifyRows?
    ensures ExactErrors(w, t, x)
  {
    if x.req.remove <= w.env.registry {
      forall p | p in x.req.add ensures p in w.env.registry { assert p in NextPerms(x); }
    }
  }

  lemma DeleteErrors(w: World, t: Tables, x: Txn)
    requires TxnInv(w, t, x) && x.phase.DeleteRole? && TxnKeys(t, x)
    ensures ExactErrors(w, t, x)
  {
    var view, r := Apply(t, x.pending), x.req.role;
    PermissionsAfter(t, x.pending, r);
    assert RolePermissions(view, r) == {};
    assert forall y :: y in view.rolePerms && y.0 == r ==> y.1 in RolePermissions(view, r);
    assert view.roles == t.roles;
    if AssignedSince(t, x) {
      var a :| a in t.orgAssignments && a.role == r && a !in x.snapshot.orgAssignments;
      assert a in view.orgAssignments;
    }
  }

  lemma AssignErrors(w: World, t: Tables, x: Txn)
    requires TxnInv(w, t, x) && TxnErrors(w, t, x) && x.phase.CompleteInsert?
    requires CustomRoleAuthority.ForeignKeys(w, t)
    ensures ExactErrors(w, t, x)
  {
  }

  /** In every reachable state, for every call that is about to write. */
  lemma WriteErrorsAreExact(w: World, s: State, actions: seq<Action>, i: nat)
    requires CustomRoleAuthority.Initial(w, s) && w.env.Valid() && RegisteredRows(w, s.t)
    requires i in Run(w, s, actions).txns && Writing(Run(w, s, actions).txns[i])
    ensures var s1 := Run(w, s, actions);
      PhaseFits(s1.txns[i]) && !s1.txns[i].req.Create? && ExactErrors(w, s1.t, s1.txns[i])
  {
    RunKeepsErrors(w, s, actions);
    RunKeepsKeys(w, s, actions);
    WriteErrors(w, Run(w, s, actions), i);
  }

  lemma WriteErrors(w: World, s: State, i: nat)
    requires Inv(w, s) && ErrorsInv(w, s) && KeysInv(w, s) && i in s.txns && Writing(s.txns[i])
    ensures PhaseFits(s.txns[i]) && !s.txns[i].req.Create? && ExactErrors(w, s.t, s.txns[i])
  {
    var x := s.txns[i];
    assert TxnInv(w, s.t, x) && TxnErrors(w, s.t, x);
    if x.phase.UpdateRole? {
      UpdateErrors(w, s.t, x);
    } else if x.phase.ModifyRows? {
      ModifyErrors(w, s.t, x);
    } else if x.phase.DeleteRole? {
      DeleteErrors(w, s.t, x);
    } else {
      AssignErrors(w, s.t, x);
    }
  }
}
