/** Who can be given a role: only members of the organization, in every reachable committed state. */
module CustomRoleMembers {
  import opened Permissions
  import opened SystemRoles
  import opened CustomRoleTables
  import opened CustomRoleProtocol
  import opened CustomRoleInvariants
  import CustomRoleAuthority

  /** Every assignment names a user and a membership: the foreign keys to org_membership. */
  ghost predicate MembersOnly(w: World, t: Tables) {
    && (forall a :: a in t.orgAssignments ==> (a.user, a.org) in w.members)
    && (forall a :: a in t.projectAssignments ==>
          a.project in w.projects && (a.user, w.projects[a.project]) in w.members)
  }

  /** A call that is about to assign or unassign a role names a user who is a member of the organization. */
  ghost predicate TargetBelongs(w: World, x: Txn) {
    (Assigns(x.req) || Unassigns(x.req)) && x.phase.Commit? ==>
      && x.req.target in w.env.users && x.req.project in w.projects
      && (x.req.target, w.projects[x.req.project]) in w.members
  }

  ghost predicate MembersInv(w: World, s: State) {
    MembersOnly(w, s.t) && forall i :: i in s.txns ==> TargetBelongs(w, s.txns[i])
  }

  lemma AssignFindsMember(w: World, t: Tables, x: Txn)
    requires TxnInv(w, t, x) && Assigns(x.req) && (x.phase.Insert? || x.phase.CompleteInsert?)
    ensures TargetBelongs(w, AssignStep(w, t, x))
  {
  }

  lemma UnassignFindsMember(w: World, t: Tables, x: Txn, newRole: RoleId, newETag: ETag)
    requires TxnInv(w, t, x) && Unassigns(x.req) && x.phase.Insert?
    ensures TargetBelongs(w, InsertStep(w, t, x, newRole, newETag))
  {
  }

  lemma ReadCommitsNothing(w: World, t: Tables, sys: Assignments, x: Txn)
    requires PhaseFits(x) && Reading(x)
    ensures !ReadStep(w, t, sys, x).phase.Commit?
  {
  }

  lemma AdvanceFindsMember(w: World, t: Tables, sys: Assignments, x: Txn, newRole: RoleId, newETag: ETag)
    requires TxnInv(w, t, x) && !x.phase.Done? && !x.phase.Commit? && !x.phase.RollingBack?
    ensures TargetBelongs(w, Advance(w, t, sys, x, newRole, newETag))
  {
    AdvanceTakes(w, t, sys, x, newRole, newETag);
    if Reading(x) {
      ReadCommitsNothing(w, t, sys, x);
    } else if Assigns(x.req) {
      AssignFindsMember(w, t, x);
    } else if Unassigns(x.req) {
      UnassignFindsMember(w, t, x, newRole, newETag);
    }
  }

  lemma CommitKeepsMembers(w: World, t: Tables, x: Txn)
    requires TxnInv(w, t, x) && x.phase.Commit? && TargetBelongs(w, x) && MembersOnly(w, t)
    ensures MembersOnly(w, Apply(t, x.pending))
  {
  }

  lemma EndedKeepsMembers(w: World, s: State, a: Action, s': State)
    requires MembersInv(w, s) && Ended(s, a, s') && TxnInv(w, s.t, s.txns[a.tid])
    ensures MembersInv(w, s')
  {
    assert TargetBelongs(w, s.txns[a.tid]);
    if s.txns[a.tid].phase.Commit? { CommitKeepsMembers(w, s.t, s.txns[a.tid]); }
    forall i | i in s'.txns ensures TargetBelongs(w, s'.txns[i]) {
      assert i != a.tid ==> TargetBelongs(w, s.txns[i]);
    }
  }

  lemma AdvancedKeepsMembers(w: World, s: State, a: Action, s': State)
    requires MembersInv(w, s) && a.Step? && a.tid in s.txns && TxnInv(w, s.t, s.txns[a.tid]) && AdvancedBy(w, s, a, s')
    ensures MembersInv(w, s')
  {
    AdvanceFindsMember(w, s.t, s.sys, s.txns[a.tid], a.newRole, a.newETag);
    forall i | i in s'.txns ensures TargetBelongs(w, s'.txns[i]) {
      assert i != a.tid ==> TargetBelongs(w, s.txns[i]);
    }
  }

  lemma OthersKeepMembers(w: World, s: State, a: Action)
    requires MembersInv(w, s) && Enabled(w, s, a) && !a.Step?
    ensures MembersInv(w, Next(w, s, a))
  {
    var s' := Next(w, s, a);
    forall i | i in s'.txns ensures TargetBelongs(w, s'.txns[i]) {
      if i in s.txns { assert TargetBelongs(w, s.txns[i]); }
    }
  }

  lemma {:induction false} RunKeepsMembers(w: World, s: State, actions: seq<Action>)
    requires Inv(w, s) && MembersInv(w, s)
    ensures Inv(w, Run(w, s, actions)) && MembersInv(w, Run(w, s, actions))
    decreases |actions|
  {
    if actions != [] {
      var a := actions[0];
      if Enabled(w, s, a) {
        var s' := Next(w, s, a);
        NextMoves(w, s, a);
        MoveKeepsInv(w, s, a, s');
        if !a.Step? {
          OthersKeepMembers(w, s, a);
        } else if Ended(s, a, s') {
          assert TxnInv(w, s.t, s.txns[a.tid]);
          EndedKeepsMembers(w, s, a, s');
        } else {
          AdvancedKeepsMembers(w, s, a, s');
        }
        RunKeepsMembers(w, s', actions[1..]);
      } else {
        RunKeepsMembers(w, s, actions[1..]);
      }
    }
  }

  /** In every reachable state, nobody but members of the organization has a role in it or in a project of it,
      and every assignment and unassignment about to commit names a member. */
  lemma OnlyMembersAreAssigned(w: World, s: State, actions: seq<Action>)
    requires CustomRoleAuthority.Initial(w, s) && MembersOnly(w, s.t)
    ensures var s1 := Run(w, s, actions);
      && (forall a :: a in s1.t.orgAssignments ==> (a.user, a.org) in w.members)
      && (forall a :: a in s1.t.projectAssignments ==>
            a.project in w.projects && (a.user, w.projects[a.project]) in w.members)
      && (forall i :: i in s1.txns ==> TargetBelongs(w, s1.txns[i]))
  {
    RunKeepsMembers(w, s, actions);
  }
}
