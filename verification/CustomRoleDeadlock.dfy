/** Who waits for whom among custom-role calls, and when that never ends. Calls take the role lock first, then
    assignment rows, then the role's row; but a call that has written its role's row may still wait for a name
    that another such call is giving up. Deadlocks are exactly the cycles of such calls. */
module CustomRoleDeadlock {
  import opened Permissions
  import opened SystemRoles
  import opened CustomRoleTables
  import opened CustomRoleProtocol
  import opened CustomRoleInvariants
  import opened CustomRoleProgress
  import opened Graphs
  import CustomRoleAuthority

  predicate Unfinished(s: State, i: nat) { i in s.txns && !s.txns[i].phase.Done? }

  // ---- Waits --------------------------------------------------------------------------------------

  predicate WaitsForLock(s: State, i: nat, j: nat)
    requires i in s.txns
  {
    var x := s.txns[i];
    && x.phase.LockRole? && !x.req.Create?
    && x.req.role in s.t.roles && x.req.role in s.roleLock && s.roleLock[x.req.role] == j
  }

  predicate WaitsForAssignment(w: World, s: State, i: nat, j: nat)
    requires i in s.txns && j in s.txns
  {
    j != i && !RowsFree(WantedRows(w, s.t, s.txns[i]), s.txns[j])
  }

  predicate WaitsForRow(w: World, s: State, i: nat, j: nat)
    requires i in s.txns && j in s.txns
  {
    var x, y := s.txns[i], s.txns[j];
    && !x.req.Create? && (WritesRoleRow(x) || SharesRoleRow(w, s.t, x))
    && ((x.req.role in s.rowLock && s.rowLock[x.req.role] == j)
        || (WritesRoleRow(x) && y.shared && !y.req.Create? && y.req.role == x.req.role))
  }

  predicate WaitsForName(s: State, i: nat, j: nat)
    requires i in s.txns && j in s.txns
  {
    var x := s.txns[i];
    j != i && x.phase.IndexName? && NamesRole(x.req) && HoldsName(s.t, s.txns[j], x.org, WantedName(x.req))
  }

  predicate WaitsFor(w: World, s: State, i: nat, j: nat) {
    && i in s.txns && j in s.txns
    && (WaitsForLock(s, i, j) || WaitsForAssignment(w, s, i, j) || WaitsForRow(w, s, i, j) || WaitsForName(s, i, j))
  }

  lemma WaitingMeansBlocked(w: World, s: State, i: nat, j: nat)
    requires i in s.txns && WaitsFor(w, s, i, j)
    ensures !Unblocked(w, s, i)
  {
  }

  lemma BlockedMeansWaiting(w: World, s: State, i: nat)
    requires Owners(s) && i in s.txns && !Unblocked(w, s, i)
    ensures exists j: nat :: WaitsFor(w, s, i, j)
  {
    var x := s.txns[i];
    if x.phase.LockRole? && !x.req.Create? && x.req.role in s.t.roles && x.req.role in s.roleLock {
      assert Holds(s, x.req.role, s.roleLock[x.req.role], false);
      assert WaitsFor(w, s, i, s.roleLock[x.req.role]);
    } else if !x.req.Create? && (WritesRoleRow(x) || SharesRoleRow(w, s.t, x)) && x.req.role in s.rowLock {
      assert Holds(s, x.req.role, s.rowLock[x.req.role], true);
      assert WaitsFor(w, s, i, s.rowLock[x.req.role]);
    } else if j :| j in s.txns && WaitsForAssignment(w, s, i, j) {
      assert WaitsFor(w, s, i, j);
    } else if j :| j in s.txns && WaitsForName(s, i, j) {
      assert WaitsFor(w, s, i, j);
    } else if j :| j in s.txns && WaitsForRow(w, s, i, j) {
      assert WaitsFor(w, s, i, j);
    }
  }

  /** The relation is exact: a call can take its next step if and only if it waits for nobody. */
  lemma StepsUnlessWaiting(w: World, s: State, i: nat)
    requires Owners(s) && Unfinished(s, i) && PhaseFits(s.txns[i])
    ensures CanStep(w, s, i) <==> forall j: nat :: (i, j) !in Waits(w, s)
  {
    if CanStep(w, s, i) {
      forall j: nat ensures (i, j) !in Waits(w, s) {
        if WaitsFor(w, s, i, j) { WaitingMeansBlocked(w, s, i, j); }
      }
    } else if Unblocked(w, s, i) {
      UnblockedCanStep(w, s, i);
    } else {
      BlockedMeansWaiting(w, s, i);
      var j: nat :| WaitsFor(w, s, i, j);
      assert (i, j) in Waits(w, s);
    }
  }

  ghost function Waits(w: World, s: State): Edges {
    set i, j | i in s.txns && j in s.txns && WaitsFor(w, s, i, j) :: (i, j)
  }

  // ---- Whom a call can wait for ---------------------------------------------------------------------

  ghost predicate AllFit(w: World, s: State) {
    LockInv(s) && forall i :: i in s.txns ==> TxnInv(w, s.t, s.txns[i])
  }

  /** The order in which locks are taken, by what the next step of a call may wait for. */
  function Rank(x: Txn): nat {
    match x.phase
    case LockRole => 0
    case Insert => 1
    case CompleteInsert => 1
    case DeleteOrgAssignments => 2
    case DeleteRolePermissions => 2
    case UpdateRole => 3
    case TouchRole => 3
    case DeleteRole => 3
    case IndexName => 4
    case _ => 5
  }

  /** Who has locked the role's row is past the wait for it. */
  lemma RowHolderRank(w: World, t: Tables, y: Txn)
    requires TxnInv(w, t, y) && (y.rowLocked || y.shared || y.named)
    ensures !y.phase.Done? && Rank(y) >= 4
    ensures y.shared || y.named ==> Rank(y) == 5
  {
  }

  /** Only assignments, unassignments and deletes lock assignment rows, and they are past the wait for
      them, or have the role lock. */
  lemma AssignmentHolderRank(w: World, t: Tables, y: Txn, d: Delta)
    requires TxnInv(w, t, y) && !RowsFree(d, y)
    ensures !y.phase.Done? && Rank(y) >= 2
    ensures Rank(y) == 2 ==> y.req.Delete? && y.locked && DeletesOnlyRole(y.pending, y.req.role)
  {
  }

  lemma DeletesExclude(w: World, s: State, i: nat, j: nat)
    requires AllFit(w, s) && i in s.txns && j in s.txns && Rank(s.txns[i]) == 2 && WaitsForAssignment(w, s, i, j)
    ensures Rank(s.txns[j]) > 2
  {
    var x, y := s.txns[i], s.txns[j];
    assert TxnInv(w, s.t, x) && TxnInv(w, s.t, y);
    AssignmentHolderRank(w, s.t, y, WantedRows(w, s.t, x));
  }

  lemma AssignmentWaitsUpward(w: World, s: State, i: nat, j: nat)
    requires AllFit(w, s) && i in s.txns && j in s.txns && WaitsForAssignment(w, s, i, j)
    ensures Unfinished(s, i) && Unfinished(s, j) && Rank(s.txns[i]) < Rank(s.txns[j])
  {
    assert TxnInv(w, s.t, s.txns[i]) && TxnInv(w, s.t, s.txns[j]);
    AssignmentHolderRank(w, s.t, s.txns[j], WantedRows(w, s.t, s.txns[i]));
    if Rank(s.txns[i]) == 2 { DeletesExclude(w, s, i, j); }
  }

  lemma LockWaitsUpward(w: World, s: State, i: nat, j: nat)
    requires AllFit(w, s) && Owners(s) && i in s.txns && j in s.txns && WaitsForLock(s, i, j)
    ensures Unfinished(s, i) && Unfinished(s, j) && Rank(s.txns[i]) < Rank(s.txns[j])
  {
    assert TxnInv(w, s.t, s.txns[j]);
    assert Holds(s, s.txns[i].req.role, j, false);
  }

  lemma RowWaitsUpward(w: World, s: State, i: nat, j: nat)
    requires AllFit(w, s) && Owners(s) && i in s.txns && j in s.txns && WaitsForRow(w, s, i, j)
    ensures Unfinished(s, i) && Unfinished(s, j) && Rank(s.txns[i]) < Rank(s.txns[j])
  {
    var x, y := s.txns[i], s.txns[j];
    assert TxnInv(w, s.t, y);
    assert !y.shared ==> Holds(s, x.req.role, j, true);
    RowHolderRank(w, s.t, y);
  }

  lemma NameWaitsUpward(w: World, s: State, i: nat, j: nat)
    requires AllFit(w, s) && i in s.txns && j in s.txns && WaitsForName(s, i, j)
    ensures Unfinished(s, i) && Unfinished(s, j) && Rank(s.txns[i]) == 4 <= Rank(s.txns[j])
  {
    assert TxnInv(w, s.t, s.txns[j]);
    RowHolderRank(w, s.t, s.txns[j]);
  }

  /** A call waits only for calls further along than itself, except among calls that name a role. */
  lemma WaitsUpward(w: World, s: State, i: nat, j: nat)
    requires AllFit(w, s) && Owners(s) && WaitsFor(w, s, i, j)
    ensures Unfinished(s, i) && Unfinished(s, j)
    ensures Rank(s.txns[i]) < Rank(s.txns[j]) || (Rank(s.txns[i]) == 4 && Rank(s.txns[j]) == 4)
  {
    if WaitsForName(s, i, j) {
      NameWaitsUpward(w, s, i, j);
    } else if WaitsForLock(s, i, j) {
      LockWaitsUpward(w, s, i, j);
    } else if WaitsForAssignment(w, s, i, j) {
      AssignmentWaitsUpward(w, s, i, j);
    } else {
      RowWaitsUpward(w, s, i, j);
    }
  }

  // ---- Asking for names ---------------------------------------------------------------------------------

  /** `i` has written its row and asks for the name of the role whose row `j` has written to give it
      another one, which `j` in turn is asking for. */
  predicate AsksFor(s: State, i: nat, j: nat) {
    && i in s.txns && j in s.txns && i != j
    && s.txns[i].phase.IndexName? && s.txns[j].phase.IndexName?
    && NamesRole(s.txns[i].req) && NamesRole(s.txns[j].req) && !s.txns[j].req.Create? && s.txns[j].rowLocked
    && Owns(s.t, s.txns[i].org, s.txns[j].req.role)
    && Lower(s.t.roles[s.txns[j].req.role].name) == Lower(WantedName(s.txns[i].req))
  }

  ghost function Asks(s: State): Edges {
    set i, j | i in s.txns && j in s.txns && AsksFor(s, i, j) :: (i, j)
  }

  lemma AskingIsWaiting(w: World, s: State)
    ensures Asks(s) <= Waits(w, s)
  {
    forall x | x in Asks(s) ensures x in Waits(w, s) {
      assert AsksFor(s, x.0, x.1) && WaitsForName(s, x.0, x.1) && WaitsFor(w, s, x.0, x.1);
    }
  }

  lemma WaitingAtTheTop(w: World, s: State, i: nat, j: nat)
    requires AllFit(w, s) && Owners(s) && WaitsFor(w, s, i, j)
    requires Rank(s.txns[i]) == 4 && Rank(s.txns[j]) == 4
    ensures AsksFor(s, i, j)
  {
    assert TxnInv(w, s.t, s.txns[i]) && TxnInv(w, s.t, s.txns[j]);
    assert WaitsForName(s, i, j);
  }

  ghost function Ranks(s: State): map<nat, nat> { map i | i in s.txns :: Rank(s.txns[i]) }

  lemma WaitRises(w: World, s: State, i: nat, j: nat)
    requires AllFit(w, s) && Owners(s) && (i, j) in Waits(w, s)
    ensures i in Ranks(s) && j in Ranks(s) && Ranks(s)[i] <= 4
    ensures Ranks(s)[i] < Ranks(s)[j] || Ranks(s)[i] == Ranks(s)[j] == 4
    ensures Ranks(s)[i] == Ranks(s)[j] == 4 ==> (i, j) in Asks(s)
  {
    WaitsUpward(w, s, i, j);
    if Ranks(s)[i] == Ranks(s)[j] == 4 { WaitingAtTheTop(w, s, i, j); }
  }

  lemma WaitsRise(w: World, s: State)
    requires AllFit(w, s) && Owners(s)
    ensures Rising(Waits(w, s), Ranks(s), 4) && TopEdges(Waits(w, s), Asks(s), Ranks(s), 4)
  {
    forall i: nat, j: nat | (i, j) in Waits(w, s)
      ensures i in Ranks(s) && j in Ranks(s) && Ranks(s)[i] <= 4
      ensures Ranks(s)[i] < Ranks(s)[j] || Ranks(s)[i] == Ranks(s)[j] == 4
      ensures Ranks(s)[i] == Ranks(s)[j] == 4 ==> (i, j) in Asks(s)
    {
      WaitRises(w, s, i, j);
    }
    AskingIsWaiting(w, s);
  }

  // ---- Every reachable state ---------------------------------------------------------------------------------

  ghost predicate Start(w: World, s: State) {
    CustomRoleAuthority.Initial(w, s) && s.roleLock == map[] && s.rowLock == map[]
  }

  lemma Reached(w: World, s: State, actions: seq<Action>)
    requires Start(w, s)
    ensures var s1 := Run(w, s, actions); Inv(w, s1) && Owners(s1) && AllFit(w, s1)
  {
    RunKeepsOwners(w, s, actions);
  }

  /** Calls deadlock - none of them can go on before one of them has ended - exactly when some of them, each
      having written the row of a role, ask each other in a cycle for the names that they are giving up. */
  lemma DeadlocksAreNameCycles(w: World, s: State, actions: seq<Action>)
    requires Start(w, s)
    ensures var s1 := Run(w, s, actions);
      (exists d :: Stuck(Waits(w, s1), d)) <==> (exists c :: Cycle(Asks(s1), c))
  {
    Reached(w, s, actions);
    WaitsRise(w, Run(w, s, actions));
    StuckExactlyWhen(Waits(w, Run(w, s, actions)), Asks(Run(w, s, actions)), Ranks(Run(w, s, actions)), 4);
  }

  function AllUnfinished(s: State): set<nat> { set i | i in s.txns && Unfinished(s, i) }

  lemma UnfinishedAreStuck(w: World, s: State)
    requires AllFit(w, s) && Owners(s) && AllUnfinished(s) != {}
    requires forall i :: Unfinished(s, i) ==> !CanStep(w, s, i)
    ensures Stuck(Waits(w, s), AllUnfinished(s))
  {
    forall i: nat | i in AllUnfinished(s) ensures HasNext(Waits(w, s), AllUnfinished(s), i) {
      assert TxnInv(w, s.t, s.txns[i]);
      StepsUnlessWaiting(w, s, i);
      var j: nat :| (i, j) in Waits(w, s);
      WaitsUpward(w, s, i, j);
      assert j in AllUnfinished(s);
    }
  }

  lemma AllWaitersAreLed(w: World, s: State)
    requires AllFit(w, s) && Owners(s) && forall i :: Unfinished(s, i) ==> !CanStep(w, s, i)
    ensures forall i :: Unfinished(s, i) ==> Leads(Waits(w, s), Asks(s), i)
  {
    WaitsRise(w, s);
    forall i | Unfinished(s, i) ensures Leads(Waits(w, s), Asks(s), i) {
      assert i in AllUnfinished(s);
      UnfinishedAreStuck(w, s);
      StuckLeads(Waits(w, s), Asks(s), AllUnfinished(s), i, Ranks(s), 4);
    }
  }

  lemma LedCallsWait(w: World, s: State, i: nat)
    requires AllFit(w, s) && Owners(s) && Unfinished(s, i) && Leads(Waits(w, s), Asks(s), i)
    ensures !CanStep(w, s, i)
  {
    assert TxnInv(w, s.t, s.txns[i]);
    AskingIsWaiting(w, s);
    LedHasEdge(Waits(w, s), Asks(s), i);
    StepsUnlessWaiting(w, s, i);
  }

  /** In every reachable state: no unfinished call can take a step exactly when the waits of every one lead
      to such a cycle. In particular, as long as there is none and a call is unfinished, some call can. */
  lemma NobodyMovesExactlyWhen(w: World, s: State, actions: seq<Action>)
    requires Start(w, s)
    ensures var s1 := Run(w, s, actions);
      && ((forall i :: Unfinished(s1, i) ==> !CanStep(w, s1, i)) <==>
          (forall i :: Unfinished(s1, i) ==> Leads(Waits(w, s1), Asks(s1), i)))
      && ((exists i :: Unfinished(s1, i)) && !(exists c :: Cycle(Asks(s1), c)) ==> exists i :: CanStep(w, s1, i))
  {
    Reached(w, s, actions);
    CallsMove(w, Run(w, s, actions));
  }

  lemma CallsMove(w: World, s: State)
    requires AllFit(w, s) && Owners(s)
    ensures (forall i :: Unfinished(s, i) ==> !CanStep(w, s, i)) <==>
            (forall i :: Unfinished(s, i) ==> Leads(Waits(w, s), Asks(s), i))
  {
    if forall i :: Unfinished(s, i) ==> !CanStep(w, s, i) { AllWaitersAreLed(w, s); }
    if forall i :: Unfinished(s, i) ==> Leads(Waits(w, s), Asks(s), i) {
      forall i | Unfinished(s, i) ensures !CanStep(w, s, i) { LedCallsWait(w, s, i); }
    }
  }

  // ---- A cycle stays -----------------------------------------------------------------------------------------

  lemma MemberIsBlocked(w: World, s: State, c: seq<nat>, i: nat)
    requires Cycle(Asks(s), c) && i in c
    ensures i in s.txns && !Unblocked(w, s, i)
  {
    var k :| 0 <= k < |c| && c[k] == i;
    assert (c[k], After(c, k)) in Asks(s);
    AskingIsWaiting(w, s);
    WaitingMeansBlocked(w, s, c[k], After(c, k));
  }

  lemma MemberIsKept(w: World, s: State, a: Action, s': State, i: nat)
    requires Inv(w, s) && Move(w, s, a, s') && i in s.txns && s.txns[i].rowLocked && !s.txns[i].req.Create?
    requires (a.Step? || a.Cancel?) ==> a.tid != i
    ensures i in s'.txns && s'.txns[i] == s.txns[i]
    ensures var r := s.txns[i].req.role; r in s.t.roles && r in s'.t.roles && s'.t.roles[r] == s.t.roles[r]
  {
    assert TxnInv(w, s.t, s.txns[i]);
    match a
    case CreateOrganization(_, _, _, _) =>
      FoundingLeavesOtherRoles(s.t, a.org, a.creator, a.newRole, a.newETag, s.txns[i].req.role);
    case Step(tid, _, _) =>
      if Ended(s, a, s') && s.txns[tid].phase.Commit? {
        InvReady(w, s, tid);
        CommitKeepsOther(w, s.t, s.txns[tid], s.txns[i]);
      }
    case _ =>
  }

  lemma AskingStays(w: World, s: State, a: Action, s': State, i: nat, j: nat)
    requires Inv(w, s) && Move(w, s, a, s') && AsksFor(s, i, j)
    requires s.txns[i].rowLocked && !s.txns[i].req.Create?
    requires (a.Step? || a.Cancel?) ==> a.tid != i && a.tid != j
    ensures AsksFor(s', i, j)
  {
    MemberIsKept(w, s, a, s', i);
    MemberIsKept(w, s, a, s', j);
  }

  lemma MembersHaveWritten(s: State, c: seq<nat>, k: nat)
    requires Cycle(Asks(s), c) && k < |c|
    ensures AsksFor(s, c[k], After(c, k)) && s.txns[c[k]].rowLocked && !s.txns[c[k]].req.Create?
  {
    assert (c[k], After(c, k)) in Asks(s);
    var before := if k == 0 then |c| - 1 else k - 1;
    assert (c[before], After(c, before)) in Asks(s);
  }

  lemma CycleStays(w: World, s: State, a: Action, s': State, c: seq<nat>)
    requires Inv(w, s) && Move(w, s, a, s') && Cycle(Asks(s), c)
    requires (a.Step? || a.Cancel?) ==> a.tid !in c
    ensures Cycle(Asks(s'), c)
  {
    forall k | 0 <= k < |c| ensures (c[k], After(c, k)) in Asks(s') {
      MembersHaveWritten(s, c, k);
      AskingStays(w, s, a, s', c[k], After(c, k));
    }
  }

  /** The members of a cycle never take another step: whatever happens, the cycle is there until one of them
      is cancelled, as the database does to one of them in the end. */
  lemma {:induction false} CyclesStayUntilCancelled(w: World, s: State, actions: seq<Action>, c: seq<nat>)
    requires Inv(w, s) && Cycle(Asks(s), c)
    requires forall k :: 0 <= k < |actions| && actions[k].Cancel? ==> actions[k].tid !in c
    ensures Cycle(Asks(Run(w, s, actions)), c)
    decreases |actions|
  {
    if actions != [] {
      var a := actions[0];
      if Enabled(w, s, a) {
        if a.Step? && a.tid in c { MemberIsBlocked(w, s, c, a.tid); }
        NextMoves(w, s, a);
        CycleStays(w, s, a, Next(w, s, a), c);
        MoveKeepsInv(w, s, a, Next(w, s, a));
        CyclesStayUntilCancelled(w, Next(w, s, a), actions[1..], c);
      } else {
        CyclesStayUntilCancelled(w, s, actions[1..], c);
      }
    }
  }

  // ---- When there is none ------------------------------------------------------------------------------------

  predicate Renaming(s: State, i: nat) { Unfinished(s, i) && NamesRole(s.txns[i].req) && !s.txns[i].req.Create? }

  /** Nobody asks for the present name of a role that somebody else is renaming. */
  ghost predicate NobodyWantsAName(s: State) {
    forall i, j :: Renaming(s, i) && Renaming(s, j) && i != j ==>
      !(Owns(s.t, s.txns[i].org, s.txns[j].req.role)
        && Lower(s.t.roles[s.txns[j].req.role].name) == Lower(WantedName(s.txns[i].req)))
  }

  /** Each organization has at most one call in flight that renames a role. */
  ghost predicate OneRenamePerOrg(s: State) {
    forall i, j :: Renaming(s, i) && Renaming(s, j) && s.txns[i].org == s.txns[j].org ==> i == j
  }

  lemma CyclesRefuteConditions(w: World, s: State, c: seq<nat>)
    requires AllFit(w, s) && Cycle(Asks(s), c)
    ensures !NobodyWantsAName(s) && !OneRenamePerOrg(s)
  {
    MembersHaveWritten(s, c, 0);
    assert TxnInv(w, s.t, s.txns[After(c, 0)]);
    assert Renaming(s, c[0]) && Renaming(s, After(c, 0));
  }

  /** Two conditions under which some call can always go on: no requested name belongs to a role that another
      call is renaming; or there is one renaming call for each organization. */
  lemma SomebodyMoves(w: World, s: State, actions: seq<Action>)
    requires Start(w, s)
    requires var s1 := Run(w, s, actions);
      (exists i :: Unfinished(s1, i)) && (NobodyWantsAName(s1) || OneRenamePerOrg(s1))
    ensures exists i :: CanStep(w, Run(w, s, actions), i)
  {
    Reached(w, s, actions);
    NobodyMovesExactlyWhen(w, s, actions);
    if c :| Cycle(Asks(Run(w, s, actions)), c) { CyclesRefuteConditions(w, Run(w, s, actions), c); }
  }
}
