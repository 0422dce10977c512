/** The foreign keys of the role tables, in every reachable committed state: no assignment and no permission
    row ever refers to a role that is gone, although an assignment in an organization takes no role lock. */
module CustomRoleForeignKeys {
  import opened Permissions
  import opened SystemRoles
  import opened CustomRoleTables
  import opened CustomRoleProtocol
  import opened CustomRoleInvariants
  import opened CustomRoleAuthority

  /** The assignment rows that a delete has collected so far. */
  ghost predicate TxnKeys(t: Tables, x: Txn)
    requires !x.req.Create?
  {
    var r := x.req.role;
    x.req.Delete? && AfterRead(x) && !x.phase.DeleteProjectAssignments? ==>
      && (forall a :: a in t.projectAssignments && a.role == r ==> a in x.pending.projectDel)
      && (!x.phase.DeleteOrgAssignments? ==>
            x.pending.orgDel == set a | a in x.snapshot.orgAssignments && a.role == r)
      && (x.phase.Commit? ==> forall a :: a in t.orgAssignments && a.role == r ==> a in x.pending.orgDel)
  }

  ghost predicate KeysInv(w: World, s: State) {
    && ForeignKeys(w, s.t)
    && (forall i :: i in s.txns && !s.txns[i].req.Create? ==> TxnKeys(s.t, s.txns[i]))
  }

  lemma AdvanceKeepsKeys(w: World, t: Tables, sys: Assignments, x: Txn, newRole: RoleId, newETag: ETag)
    requires TxnInv(w, t, x) && !x.req.Create? && TxnKeys(t, x)
    requires !x.phase.Done? && !x.phase.Commit? && !x.phase.RollingBack?
    ensures TxnKeys(t, Advance(w, t, sys, x, newRole, newETag))
  {
    if x.req.Delete? && x.phase.DeleteRole? {
      var view := Apply(t, x.pending);
      forall a | a in t.orgAssignments && a.role == x.req.role && a !in x.pending.orgDel
        ensures Referenced(view, x.req.role)
      {
        assert a in view.orgAssignments;
      }
    }
  }

  /** An assignment that is about to commit refers to a role that is there and stays there. */
  lemma CommitKeepsOrgKeys(w: World, t: Tables, x: Txn, a: OrgAssignment)
    requires TxnInv(w, t, x) && x.phase.Commit? && ForeignKeys(w, t)
    requires x.req.Create? ==> Subject(x) !in t.roles
    requires !x.req.Create? ==> TxnKeys(t, x)
    requires a in Apply(t, x.pending).orgAssignments
    ensures Owns(Apply(t, x.pending), a.org, a.role)
  {
    assert a in t.orgAssignments ==> Owns(t, a.org, a.role);
    KeepsOwner(w, t, x, a.org, a.role);
  }

  lemma CommitKeepsProjectKeys(w: World, t: Tables, x: Txn, a: ProjectAssignment)
    requires TxnInv(w, t, x) && x.phase.Commit? && ForeignKeys(w, t)
    requires x.req.Create? ==> Subject(x) !in t.roles
    requires !x.req.Create? ==> TxnKeys(t, x)
    requires a in Apply(t, x.pending).projectAssignments
    ensures a.project in w.projects && Owns(Apply(t, x.pending), w.projects[a.project], a.role)
  {
    assert a in t.projectAssignments ==> a.project in w.projects && Owns(t, w.projects[a.project], a.role);
    KeepsOwner(w, t, x, w.projects[a.project], a.role);
  }

  /** Only its own delete takes a role away. */
  lemma KeepsOwner(w: World, t: Tables, x: Txn, org: OrgId, r: RoleId)
    requires CommitShape(w, x) && Owns(t, org, r)
    requires x.req.Create? ==> Subject(x) !in t.roles
    ensures Owns(Apply(t, x.pending), org, r) || (x.req.Delete? && x.req.role == r)
  {
    if r in Apply(t, x.pending).roles { CommitKeepsRowIdentity(w, t, x, r); }
  }

  lemma CommitKeepsForeignKeys(w: World, t: Tables, x: Txn)
    requires TxnInv(w, t, x) && x.phase.Commit? && ForeignKeys(w, t)
    requires x.req.Create? ==> Subject(x) !in t.roles
    requires !x.req.Create? ==> TxnKeys(t, x)
    ensures ForeignKeys(w, Apply(t, x.pending))
  {
    var t' := Apply(t, x.pending);
    CommitKeepsRowOwners(w, t, x);
    forall a | a in t'.orgAssignments ensures Owns(t', a.org, a.role) { CommitKeepsOrgKeys(w, t, x, a); }
    forall a | a in t'.projectAssignments
      ensures a.project in w.projects && Owns(t', w.projects[a.project], a.role)
    {
      CommitKeepsProjectKeys(w, t, x, a);
    }
  }

  lemma CommitKeepsTxnKeys(w: World, t: Tables, x: Txn, y: Txn)
    requires TxnInv(w, t, x) && TxnInv(w, t, y) && Apart(x, y) && x.phase.Commit?
    requires !y.req.Create? && TxnKeys(t, y)
    ensures TxnKeys(Apply(t, x.pending), y)
  {
    CommitKeepsOther(w, t, x, y);
  }

  lemma EndedKeepsTxnKeys(w: World, s: State, a: Action, s': State, j: nat)
    requires Ended(s, a, s') && Ready(w, s, a.tid) && j in s.txns && TxnInv(w, s.t, s.txns[j])
    requires !s.txns[j].req.Create? && TxnKeys(s.t, s.txns[j])
    ensures TxnKeys(s'.t, s'.txns[j])
  {
    if j != a.tid && s.txns[a.tid].phase.Commit? { CommitKeepsTxnKeys(w, s.t, s.txns[a.tid], s.txns[j]); }
  }

  lemma EndedKeepsKeys(w: World, s: State, a: Action, s': State)
    requires KeysInv(w, s) && Ended(s, a, s') && Ready(w, s, a.tid)
    requires forall j :: j in s.txns ==> TxnInv(w, s.t, s.txns[j])
    ensures KeysInv(w, s')
  {
    if s.txns[a.tid].phase.Commit? { CommitKeepsForeignKeys(w, s.t, s.txns[a.tid]); }
    forall j | j in s'.txns && !s'.txns[j].req.Create? ensures TxnKeys(s'.t, s'.txns[j]) {
      EndedKeepsTxnKeys(w, s, a, s', j);
    }
  }

  lemma AdvancedKeepsKeys(w: World, s: State, a: Action, s': State)
    requires KeysInv(w, s) && a.Step? && a.tid in s.txns && TxnInv(w, s.t, s.txns[a.tid]) && AdvancedBy(w, s, a, s')
    ensures KeysInv(w, s')
  {
    if !s.txns[a.tid].req.Create? { AdvanceKeepsKeys(w, s.t, s.sys, s.txns[a.tid], a.newRole, a.newETag); }
  }

  lemma FoundedKeepsKeys(w: World, s: State, a: Action, s': State)
    requires KeysInv(w, s) && FreshInv(s) && Founded(w, s, a, s')
    ensures KeysInv(w, s')
  {
    forall r, org | Owns(s.t, org, r) ensures Owns(s'.t, org, r) {
      FoundingLeavesOtherRoles(s.t, a.org, a.creator, a.newRole, a.newETag, r);
    }
    forall j | j in s'.txns && !s'.txns[j].req.Create? ensures TxnKeys(s'.t, s'.txns[j]) {
      assert TxnKeys(s.t, s.txns[j]);
    }
  }

  lemma BegunKeepsKeys(w: World, s: State, a: Action, s': State)
    requires KeysInv(w, s) && Begun(w, s, a, s')
    ensures KeysInv(w, s')
  {
  }

  lemma DroppedKeepsKeys(w: World, s: State, a: Action, s': State)
    requires KeysInv(w, s) && Dropped(s, a, s')
    ensures KeysInv(w, s')
  {
    forall j | j in s'.txns && !s'.txns[j].req.Create? ensures TxnKeys(s'.t, s'.txns[j]) {
      assert j != a.tid ==> s'.txns[j] == s.txns[j];
    }
  }

  lemma MoveKeepsKeys(w: World, s: State, a: Action, s': State)
    requires Inv(w, s) && KeysInv(w, s) && Move(w, s, a, s')
    ensures KeysInv(w, s')
  {
    match a
    case Begin(_, _) => BegunKeepsKeys(w, s, a, s');
    case System(_) =>
    case Cancel(_) => DroppedKeepsKeys(w, s, a, s');
    case CreateOrganization(_, _, _, _) => FoundedKeepsKeys(w, s, a, s');
    case Step(tid, _, _) =>
      if Ended(s, a, s') {
        InvReady(w, s, tid);
        EndedKeepsKeys(w, s, a, s');
      } else {
        AdvancedKeepsKeys(w, s, a, s');
      }
  }

  lemma {:induction false} RunKeepsKeys(w: World, s: State, actions: seq<Action>)
    requires Inv(w, s) && KeysInv(w, s)
    ensures Inv(w, Run(w, s, actions)) && KeysInv(w, Run(w, s, actions))
    decreases |actions|
  {
    if actions != [] {
      if Enabled(w, s, actions[0]) {
        NextMoves(w, s, actions[0]);
        MoveKeepsInv(w, s, actions[0], Next(w, s, actions[0]));
        MoveKeepsKeys(w, s, actions[0], Next(w, s, actions[0]));
        RunKeepsKeys(w, Next(w, s, actions[0]), actions[1..]);
      } else {
        RunKeepsKeys(w, s, actions[1..]);
      }
    }
  }

  /** The tables of a state in which no call is in flight any more. */
  function Settled(s: State): State { s.(txns := map[], roleLock := map[], rowLock := map[]) }

  /** In every reachable committed state the foreign keys hold; so where one run ends another may start, and
      every theorem about runs from a start holds for both. */
  lemma ForeignKeysAlwaysHold(w: World, s: State, actions: seq<Action>)
    requires Initial(w, s)
    ensures ForeignKeys(w, Run(w, s, actions).t) && Initial(w, Settled(Run(w, s, actions)))
  {
    RunKeepsKeys(w, s, actions);
  }
}
