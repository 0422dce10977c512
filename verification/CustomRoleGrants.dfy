/** What the actor of a call holds: found by the rows there were when it was read, and measured against what the
    role has when an assignment, an unassignment or a delete commits. */
module CustomRoleGrants {
  import opened Permissions
  import opened SystemRoles
  import opened CustomRoleTables
  import opened CustomRoleProtocol
  import opened CustomRoleInvariants
  import CustomRoleAuthority

  predicate Moves(req: Request) { Assigns(req) || Unassigns(req) }

  /** When the role was read, the actor held all of it. */
  predicate ReadWithinHeld(x: Txn) { (Moves(x.req) || x.req.Delete?) && AfterRead(x) ==> x.seen <= x.held }

  ghost predicate AllWithinHeld(s: State) { forall i :: i in s.txns ==> ReadWithinHeld(s.txns[i]) }

  lemma AdvanceWithinHeld(w: World, t: Tables, sys: Assignments, x: Txn, newRole: RoleId, newETag: ETag)
    requires TxnInv(w, t, x) && ReadWithinHeld(x)
    requires !x.phase.Done? && !x.phase.Commit? && !x.phase.RollingBack?
    ensures ReadWithinHeld(Advance(w, t, sys, x, newRole, newETag))
  {
  }

  lemma MoveWithinHeld(w: World, s: State, a: Action, s': State)
    requires AllWithinHeld(s) && Move(w, s, a, s')
    ensures AllWithinHeld(s')
  {
    if a.Step? && !Ended(s, a, s') {
      AdvanceWithinHeld(w, s.t, s.sys, s.txns[a.tid], a.newRole, a.newETag);
    }
    forall i | i in s'.txns ensures ReadWithinHeld(s'.txns[i]) {
      if i in s.txns { assert ReadWithinHeld(s.txns[i]); }
    }
  }

  lemma {:induction false} RunWithinHeld(w: World, s: State, actions: seq<Action>)
    requires Inv(w, s) && AllWithinHeld(s)
    ensures Inv(w, Run(w, s, actions)) && AllWithinHeld(Run(w, s, actions))
    decreases |actions|
  {
    if actions != [] {
      if Enabled(w, s, actions[0]) {
        NextMoves(w, s, actions[0]);
        MoveKeepsInv(w, s, actions[0], Next(w, s, actions[0]));
        MoveWithinHeld(w, s, actions[0], Next(w, s, actions[0]));
        RunWithinHeld(w, Next(w, s, actions[0]), actions[1..]);
      } else {
        RunWithinHeld(w, s, actions[1..]);
      }
    }
  }

  /** In every reachable state an assignment in a project that is about to commit gives away only what its
      actor was found to hold: the role lock keeps the role as it was read. */
  lemma ProjectGrantsAreHeld(w: World, s: State, actions: seq<Action>, i: nat)
    requires CustomRoleAuthority.Initial(w, s)
    requires var s1 := Run(w, s, actions);
      i in s1.txns && s1.txns[i].req.AssignToProject? && s1.txns[i].phase.Commit?
    ensures var s1 := Run(w, s, actions);
      RolePermissions(s1.t, s1.txns[i].req.role) <= s1.txns[i].held
  {
    RunWithinHeld(w, s, actions);
    var s1 := Run(w, s, actions);
    assert TxnInv(w, s1.t, s1.txns[i]) && ReadWithinHeld(s1.txns[i]);
  }

  /** In every reachable state a delete that is about to commit takes away a role all of whose permissions, as
      it then is, its actor was found to hold. */
  lemma DeletesAreHeld(w: World, s: State, actions: seq<Action>, i: nat, p: Permission)
    requires CustomRoleAuthority.Initial(w, s)
    requires var s1 := Run(w, s, actions);
      i in s1.txns && s1.txns[i].req.Delete? && s1.txns[i].phase.Commit? && (s1.txns[i].req.role, p) in s1.t.rolePerms
    ensures p in Run(w, s, actions).txns[i].held
  {
    RunWithinHeld(w, s, actions);
    var s1 := Run(w, s, actions);
    assert TxnInv(w, s1.t, s1.txns[i]) && ReadWithinHeld(s1.txns[i]);
    var row := (s1.txns[i].req.role, p);
    assert row in s1.t.rolePerms && row.0 == s1.txns[i].req.role && row.1 in RolePermissions(s1.t, row.0);
  }

  // ---- Where the holdings come from ---------------------------------------------------------------

  /** What was found is what the rows of this state give the actor: in the project for an assignment or
      unassignment there, in the organization for everything else. */
  ghost predicate FoundIn(w: World, s: State, x: Txn) {
    && !x.req.Rename? && x.req.actor in w.env.users && x.req.project in w.projects
    && forall p :: p in x.held <==>
         if x.req.AssignToProject? || x.req.UnassignFromProject? then
           HoldsInProject(w, s.t, s.sys, x.req.actor, x.req.project, p)
         else HoldsInOrg(w, s.t, s.sys, x.req.actor, w.projects[x.req.project], p)
  }

  /** The actor has been read, and the call is under way. */
  predicate Known(x: Txn) { !x.req.Rename? && !x.phase.ReadActor? && !x.phase.RollingBack? && !x.phase.Done? }

  lemma ActorIsFound(w: World, s: State, x: Txn)
    requires !x.req.Rename? && x.phase.ReadActor? && Known(ActorStep(w, s.t, s.sys, x))
    ensures FoundIn(w, s, ActorStep(w, s.t, s.sys, x))
  {
    ProjectPermissionsAre(w, s.t, s.sys, x.req.actor, x.req.project);
    if x.req.project in w.projects { OrgPermissionsAre(w, s.t, s.sys, x.req.actor, w.projects[x.req.project]); }
  }

  lemma ReadKeepsHeld(w: World, t: Tables, sys: Assignments, x: Txn)
    requires PhaseFits(x) && Reading(x) && !x.phase.ReadActor?
    ensures ReadStep(w, t, sys, x).held == x.held
  {
  }

  lemma InsertKeepsHeld(w: World, t: Tables, x: Txn, newRole: RoleId, newETag: ETag)
    requires PhaseFits(x) && (x.phase.Insert? || x.phase.CompleteInsert?)
    ensures WriteStep(w, t, x, newRole, newETag).held == x.held
  {
  }

  lemma ModifyKeepsHeld(w: World, t: Tables, x: Txn, newETag: ETag)
    requires x.req.Modify?
    ensures ModifyStep(w, t, x, newETag).held == x.held
  {
  }

  lemma DeleteKeepsHeld(t: Tables, x: Txn)
    requires x.req.Delete?
    ensures DeleteStep(t, x).held == x.held
  {
  }

  lemma RowsKeepHeld(w: World, t: Tables, x: Txn)
    requires x.req.Update?
    ensures PermissionRowsStep(w, t, x).held == x.held
  {
  }

  lemma NameKeepsHeld(w: World, t: Tables, x: Txn, newETag: ETag)
    requires PhaseFits(x)
    ensures x.phase.UpdateRole? ==> UpdateRoleStep(w, t, x, newETag).held == x.held
    ensures x.phase.IndexName? ==> IndexStep(t, x).held == x.held
  {
  }

  lemma WriteKeepsHeld(w: World, t: Tables, x: Txn, newRole: RoleId, newETag: ETag)
    requires PhaseFits(x) && !Reading(x) && !x.phase.Done? && !x.phase.Commit? && !x.phase.RollingBack?
    ensures WriteStep(w, t, x, newRole, newETag).held == x.held
  {
    if x.phase.Insert? || x.phase.CompleteInsert? {
      InsertKeepsHeld(w, t, x, newRole, newETag);
    } else if x.req.Modify? {
      ModifyKeepsHeld(w, t, x, newETag);
    } else if x.req.Delete? {
      DeleteKeepsHeld(t, x);
    } else if x.phase.DeletePermissions? || x.phase.InsertPermissions? {
      RowsKeepHeld(w, t, x);
    } else {
      NameKeepsHeld(w, t, x, newETag);
    }
  }

  /** A call that has not begun, or not read its actor, or that is at an end already. */
  predicate Unread(s: State, i: nat) { i in s.txns ==> s.txns[i].phase.ReadActor? }

  lemma AdvanceFinds(w: World, s: State, x: Txn, newRole: RoleId, newETag: ETag)
    requires TxnInv(w, s.t, x) && !x.phase.Done? && !x.phase.Commit? && !x.phase.RollingBack?
    requires Known(Advance(w, s.t, s.sys, x, newRole, newETag))
    ensures var x' := Advance(w, s.t, s.sys, x, newRole, newETag);
      if x.phase.ReadActor? then FoundIn(w, s, x') else Known(x) && x'.held == x.held && x'.req == x.req
  {
    AdvanceTakes(w, s.t, s.sys, x, newRole, newETag);
    if x.phase.ReadActor? {
      ActorIsFound(w, s, x);
    } else if Reading(x) {
      ReadKeepsHeld(w, s.t, s.sys, x);
    } else {
      WriteKeepsHeld(w, s.t, x, newRole, newETag);
    }
  }

  /** One action: the call stays as it was read, or is read now. */
  lemma MoveFinds(w: World, s: State, a: Action, s': State, i: nat)
    requires Inv(w, s) && Move(w, s, a, s') && i in s'.txns && Known(s'.txns[i])
    ensures if Unread(s, i) then FoundIn(w, s, s'.txns[i])
      else i in s.txns && Known(s.txns[i]) && s'.txns[i].held == s.txns[i].held && s'.txns[i].req == s.txns[i].req
  {
    if a.Step? && a.tid == i && !Ended(s, a, s') {
      assert TxnInv(w, s.t, s.txns[i]);
      AdvanceFinds(w, s, s.txns[i], a.newRole, a.newETag);
    }
  }

  /** In every run: what a call goes by is what the rows gave its actor at some moment since it began. */
  lemma {:induction false} HeldWasFound(w: World, s: State, actions: seq<Action>, i: nat) returns (n: nat)
    requires Inv(w, s) && Unread(s, i) && i in Run(w, s, actions).txns && Known(Run(w, s, actions).txns[i])
    ensures n <= |actions| && Unread(Run(w, s, actions[..n]), i)
    ensures FoundIn(w, Run(w, s, actions[..n]), Run(w, s, actions).txns[i])
    decreases |actions|
  {
    var last := |actions| - 1;
    RunSplits(w, s, actions);
    var before := Run(w, s, actions[..last]);
    RunKeepsInv(w, s, actions[..last]);
    if Enabled(w, before, actions[last]) {
      NextMoves(w, before, actions[last]);
      MoveFinds(w, before, actions[last], Next(w, before, actions[last]), i);
      if Unread(before, i) {
        n := last;
        return;
      }
    }
    n := HeldWasFound(w, s, actions[..last], i);
    assert actions[..last][..n] == actions[..n];
  }

  lemma {:induction false} RunSplits(w: World, s: State, actions: seq<Action>)
    requires actions != []
    ensures var before := Run(w, s, actions[..|actions| - 1]); var a := actions[|actions| - 1];
      Run(w, s, actions) == if Enabled(w, before, a) then Next(w, before, a) else before
    decreases |actions|
  {
    if |actions| > 1 {
      assert actions[..|actions| - 1][1..] == actions[1..][..|actions| - 2];
      RunSplits(w, if Enabled(w, s, actions[0]) then Next(w, s, actions[0]) else s, actions[1..]);
    } else {
      assert actions[1..] == [];
    }
  }

  lemma {:induction false} RunKeepsInv(w: World, s: State, actions: seq<Action>)
    requires Inv(w, s)
    ensures Inv(w, Run(w, s, actions))
    decreases |actions|
  {
    if actions != [] {
      if Enabled(w, s, actions[0]) {
        NextMoves(w, s, actions[0]);
        MoveKeepsInv(w, s, actions[0], Next(w, s, actions[0]));
        RunKeepsInv(w, Next(w, s, actions[0]), actions[1..]);
      } else {
        RunKeepsInv(w, s, actions[1..]);
      }
    }
  }

  /** The action commits an edit of role `r` that adds a permission outside `held`. */
  ghost predicate AddsBeyond(s: State, a: Action, r: RoleId, held: set<Permission>) {
    && a.Step? && a.tid in s.txns && s.txns[a.tid].phase.Commit?
    && (s.txns[a.tid].req.Update? || s.txns[a.tid].req.Modify?) && s.txns[a.tid].req.role == r
    && !(NextPerms(s.txns[a.tid]) <= held)
  }

  /** What one action makes of the permissions of a role that exists. */
  lemma PermissionsAfterMove(w: World, s: State, a: Action, s': State, r: RoleId, held: set<Permission>)
    requires Inv(w, s) && Move(w, s, a, s') && r in s.knownRoles && RolePermissions(s.t, r) <= held
    requires forall i :: i in s.txns && Uncommitted(s.txns[i]) ==> s.txns[i].minted.value != r
    ensures RolePermissions(s'.t, r) <= held <==> !AddsBeyond(s, a, r, held)
  {
    match a
    case Step(tid, _, _) =>
      if Ended(s, a, s') && s.txns[tid].phase.Commit? {
        assert TxnInv(w, s.t, s.txns[tid]);
        CommittedWithinHeld(w, s.t, s.txns[tid], r, held);
      }
    case CreateOrganization(_, _, _, _) =>
      FoundingLeavesOtherRoles(s.t, a.org, a.creator, a.newRole, a.newETag, r);
    case _ =>
  }

  lemma CommittedWithinHeld(w: World, t: Tables, x: Txn, r: RoleId, held: set<Permission>)
    requires TxnInv(w, t, x) && x.phase.Commit? && RolePermissions(t, r) <= held
    requires x.req.Create? ==> Subject(x) != r
    ensures RolePermissions(Apply(t, x.pending), r) <= held <==>
      !((x.req.Update? || x.req.Modify?) && x.req.role == r && !(NextPerms(x) <= held))
  {
    if r != Subject(x) {
      CommitLeavesOtherRoles(w, t, x, r);
    } else if x.req.Update? || x.req.Modify? {
      EditCommitsReplacement(w, t, x);
    } else {
      PermissionsAfter(t, x.pending, r);
    }
  }

  /** No such edit commits during the run. */
  ghost predicate NothingBeyond(w: World, s: State, actions: seq<Action>, r: RoleId, held: set<Permission>)
    decreases |actions|
  {
    actions != [] ==>
      if Enabled(w, s, actions[0]) then
        !AddsBeyond(s, actions[0], r, held) && NothingBeyond(w, Next(w, s, actions[0]), actions[1..], r, held)
      else NothingBeyond(w, s, actions[1..], r, held)
  }

  /** The role has been committed or asked for: nobody will be given its id. */
  ghost predicate Taken(s: State, r: RoleId) {
    r in s.knownRoles && forall i :: i in s.txns && Uncommitted(s.txns[i]) ==> s.txns[i].minted.value != r
  }

  lemma MoveKeepsTaken(w: World, s: State, a: Action, s': State, r: RoleId)
    requires Move(w, s, a, s') && Taken(s, r)
    ensures Taken(s', r)
  {
    forall i | i in s'.txns && Uncommitted(s'.txns[i]) ensures s'.txns[i].minted.value != r {
      if i in s.txns && Uncommitted(s.txns[i]) { assert s.txns[i].minted.value != r; }
    }
  }

  /** The role that a call has read may change before it assigns or unassigns the role, unless it is under the
      role lock. As long as no edit commits that adds a permission its actor was not found to hold, the actor
      still holds all of the role; the first such edit ends that. */
  lemma {:induction false} GrantsStayHeldExactlyUntil(w: World, s: State, actions: seq<Action>, r: RoleId,
                                                      held: set<Permission>)
    requires Inv(w, s) && Taken(s, r) && RolePermissions(s.t, r) <= held
    ensures NothingBeyond(w, s, actions, r, held) <==>
      forall n :: 0 <= n <= |actions| ==> RolePermissions(Run(w, s, actions[..n]).t, r) <= held
    decreases |actions|
  {
    if actions == [] {
      assert forall n :: 0 <= n <= |actions| ==> actions[..n] == [];
    } else {
      var s1 := if Enabled(w, s, actions[0]) then Next(w, s, actions[0]) else s;
      forall n | 0 < n <= |actions|
        ensures Run(w, s, actions[..n]) == Run(w, s1, actions[1..][..n - 1])
      {
        assert actions[..n][1..] == actions[1..][..n - 1];
      }
      if Enabled(w, s, actions[0]) {
        NextMoves(w, s, actions[0]);
        MoveKeepsInv(w, s, actions[0], s1);
        MoveKeepsTaken(w, s, actions[0], s1, r);
        PermissionsAfterMove(w, s, actions[0], s1, r, held);
      }
      if RolePermissions(s1.t, r) <= held {
        GrantsStayHeldExactlyUntil(w, s1, actions[1..], r, held);
        SplitFirst(w, s, s1, actions, r, held);
      } else {
        assert Run(w, s, actions[..1]) == Run(w, s1, actions[1..][..0]);
        assert actions[1..][..0] == [];
      }
    }
  }

  lemma SplitFirst(w: World, s: State, s1: State, actions: seq<Action>, r: RoleId, held: set<Permission>)
    requires actions != [] && RolePermissions(s.t, r) <= held
    requires forall n :: 0 < n <= |actions| ==> Run(w, s, actions[..n]) == Run(w, s1, actions[1..][..n - 1])
    ensures (forall n :: 0 <= n <= |actions| ==> RolePermissions(Run(w, s, actions[..n]).t, r) <= held) <==>
            (forall n :: 0 <= n <= |actions[1..]| ==> RolePermissions(Run(w, s1, actions[1..][..n]).t, r) <= held)
  {
    var rest := actions[1..];
    if forall n :: 0 <= n <= |actions| ==> RolePermissions(Run(w, s, actions[..n]).t, r) <= held {
      forall n | 0 <= n <= |rest| ensures RolePermissions(Run(w, s1, rest[..n]).t, r) <= held {
        assert Run(w, s, actions[..n + 1]) == Run(w, s1, rest[..n + 1 - 1]);
      }
    }
    if forall n :: 0 <= n <= |rest| ==> RolePermissions(Run(w, s1, rest[..n]).t, r) <= held {
      forall n | 0 <= n <= |actions| ensures RolePermissions(Run(w, s, actions[..n]).t, r) <= held {
        if n > 0 {
          assert Run(w, s, actions[..n]) == Run(w, s1, rest[..n - 1]);
        } else {
          assert actions[..0] == [];
        }
      }
    }
  }

  lemma RoleStepHolds(t: Tables, x: Txn)
    requires Moves(x.req) && RoleStep(t, x).phase.Insert?
    ensures var x' := RoleStep(t, x); x'.req == x.req && RolePermissions(t, x.req.role) <= x'.held
  {
  }

  lemma AskedForIsTaken(s: State, i: nat)
    requires FreshInv(s) && i in s.txns && !s.txns[i].req.Create?
    ensures Taken(s, s.txns[i].req.role)
  {
  }

  /** A call that assigns or unassigns a role reads it, and passes the test. */
  ghost predicate ReadsRole(w: World, s: State, a: Action) {
    && a.Step? && Enabled(w, s, a) && Moves(s.txns[a.tid].req) && s.txns[a.tid].phase.ReadRole?
    && RoleStep(s.t, s.txns[a.tid]).phase.Insert?
  }

  lemma ReadIsWithinHeld(w: World, s: State, a: Action)
    requires Inv(w, s) && ReadsRole(w, s, a)
    ensures var s1 := Next(w, s, a);
      && Inv(w, s1) && a.tid in s1.txns && Moves(s1.txns[a.tid].req)
      && Taken(s1, s1.txns[a.tid].req.role)
      && RolePermissions(s1.t, s1.txns[a.tid].req.role) <= s1.txns[a.tid].held
  {
    var s1 := Next(w, s, a);
    NextMoves(w, s, a);
    MoveKeepsInv(w, s, a, s1);
    assert s1.t == s.t && a.tid in s1.txns && s1.txns[a.tid] == RoleStep(s.t, s.txns[a.tid]) by { StepMoves(w, s, a); }
    RoleStepHolds(s.t, s.txns[a.tid]);
    AskedForIsTaken(s1, a.tid);
  }

  /** From this state on, over the run `after`: the actor of call `i` holds all of the role, as found, exactly as
      long as no edit of the role commits that adds a permission beyond that. */
  ghost predicate HeldUntilAddition(w: World, s: State, i: nat, after: seq<Action>) {
    && i in s.txns && Moves(s.txns[i].req)
    && var r, held := s.txns[i].req.role, s.txns[i].held;
       NothingBeyond(w, s, after, r, held) <==>
         forall n :: 0 <= n <= |after| ==> RolePermissions(Run(w, s, after[..n]).t, r) <= held
  }

  /** That is so in every reachable state in which a call that assigns or unassigns a role has just read it. */
  lemma HeldSinceTheRead(w: World, s: State, before: seq<Action>, read: Action, after: seq<Action>)
    requires CustomRoleAuthority.Initial(w, s) && ReadsRole(w, Run(w, s, before), read)
    ensures HeldUntilAddition(w, Next(w, Run(w, s, before), read), read.tid, after)
  {
    RunWithinHeld(w, s, before);
    ReadStarts(w, Run(w, s, before), read, after);
  }

  lemma ReadStarts(w: World, s: State, read: Action, after: seq<Action>)
    requires Inv(w, s) && ReadsRole(w, s, read)
    ensures HeldUntilAddition(w, Next(w, s, read), read.tid, after)
  {
    ReadIsWithinHeld(w, s, read);
    var s1 := Next(w, s, read);
    GrantsStayHeldExactlyUntil(w, s1, after, s1.txns[read.tid].req.role, s1.txns[read.tid].held);
  }
}
