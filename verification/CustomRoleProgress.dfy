/** When a custom-role call can take a step: who holds the locks it needs, and how many steps it has left. */
module CustomRoleProgress {
  import opened Permissions
  import opened SystemRoles
  import opened CustomRoleTables
  import opened CustomRoleProtocol
  import opened CustomRoleInvariants
  import CustomRoleAuthority
  import CustomRoleAlone
  import Sets

  ghost predicate Holds(s: State, r: RoleId, i: nat, row: bool) {
    && i in s.txns && !s.txns[i].req.Create? && s.txns[i].req.role == r
    && (if row then s.txns[i].rowLocked else s.txns[i].locked)
  }

  /** Every lock in the tables is held by a transaction that knows it. */
  ghost predicate Owners(s: State) {
    && (forall r :: r in s.roleLock ==> Holds(s, r, s.roleLock[r], false))
    && (forall r :: r in s.rowLock ==> Holds(s, r, s.rowLock[r], true))
    && (forall i :: i in s.txns && (s.txns[i].phase.ReadActor? || s.txns[i].phase.LockRole?) ==> !s.txns[i].locked)
  }

  lemma AdvanceKeepsHeld(w: World, t: Tables, sys: Assignments, x: Txn, newRole: RoleId, newETag: ETag)
    requires TxnInv(w, t, x) && !x.phase.Done? && !x.phase.Commit? && !x.phase.RollingBack?
    requires x.phase.ReadActor? || x.phase.LockRole? ==> !x.locked
    ensures var x' := Advance(w, t, sys, x, newRole, newETag);
      && (x.locked ==> x'.locked) && (x.rowLocked ==> x'.rowLocked)
      && !x'.phase.ReadActor? && (x'.phase.LockRole? ==> !x'.locked)
      && (x'.rowLocked ==> !x'.req.Create?)
  {
  }

  lemma MoveKeepsOwners(w: World, s: State, a: Action, s': State)
    requires Owners(s) && Move(w, s, a, s')
    ensures Owners(s')
  {
    match a
    case Begin(_, _) =>
      forall i | i in s.txns ensures i in s'.txns && s'.txns[i] == s.txns[i] {}
    case System(_) =>
    case CreateOrganization(_, _, _, _) =>
    case Cancel(_) => DroppedKeepsOwners(s, a, s');
    case Step(tid, newRole, newETag) =>
      if Ended(s, a, s') {
        EndedKeepsOwners(s, a, s');
      } else {
        AdvanceKeepsHeld(w, s.t, s.sys, s.txns[tid], newRole, newETag);
        AdvancedKeepsOwners(w, s, a, s', Advance(w, s.t, s.sys, s.txns[tid], newRole, newETag));
      }
  }

  lemma DroppedKeepsOwners(s: State, a: Action, s': State)
    requires Owners(s) && Dropped(s, a, s')
    ensures Owners(s')
  {
    forall i | i in s.txns
      ensures i in s'.txns && s'.txns[i].req == s.txns[i].req
      ensures s'.txns[i].locked == s.txns[i].locked && s'.txns[i].rowLocked == s.txns[i].rowLocked
    {
      assert i != a.tid ==> s'.txns[i] == s.txns[i];
    }
    forall r | r in s'.roleLock
      ensures Holds(s', r, s'.roleLock[r], false)
    {
      assert Holds(s, r, s.roleLock[r], false);
    }
    forall r | r in s'.rowLock ensures Holds(s', r, s'.rowLock[r], true) { assert Holds(s, r, s.rowLock[r], true); }
  }

  lemma EndedKeepsOwners(s: State, a: Action, s': State)
    requires Owners(s) && Ended(s, a, s')
    ensures Owners(s')
  {
    forall r | r in s'.roleLock ensures Holds(s', r, s'.roleLock[r], false) {
      assert s'.roleLock[r] == s.roleLock[r] != a.tid;
    }
    forall r | r in s'.rowLock ensures Holds(s', r, s'.rowLock[r], true) {
      assert s'.rowLock[r] == s.rowLock[r] != a.tid;
    }
  }

  lemma AdvancedKeepsOwners(w: World, s: State, a: Action, s': State, x': Txn)
    requires Owners(s) && Advanced(w, s, a, s', x')
    requires var x := s.txns[a.tid]; (x.locked ==> x'.locked) && (x.rowLocked ==> x'.rowLocked)
    requires !x'.phase.ReadActor? && (x'.phase.LockRole? ==> !x'.locked)
    ensures Owners(s')
  {
    forall r | r in s'.roleLock ensures Holds(s', r, s'.roleLock[r], false) {
      if s'.roleLock[r] != a.tid { assert r in s.roleLock && s'.roleLock[r] == s.roleLock[r]; }
    }
    forall r | r in s'.rowLock ensures Holds(s', r, s'.rowLock[r], true) {
      if s'.rowLock[r] != a.tid { assert r in s.rowLock && s'.rowLock[r] == s.rowLock[r]; }
    }
  }

  lemma {:induction false} RunKeepsOwners(w: World, s: State, actions: seq<Action>)
    requires Inv(w, s) && Owners(s)
    ensures Inv(w, Run(w, s, actions)) && Owners(Run(w, s, actions))
    decreases |actions|
  {
    if actions != [] {
      if Enabled(w, s, actions[0]) {
        NextMoves(w, s, actions[0]);
        MoveKeepsInv(w, s, actions[0], Next(w, s, actions[0]));
        MoveKeepsOwners(w, s, actions[0], Next(w, s, actions[0]));
        RunKeepsOwners(w, Next(w, s, actions[0]), actions[1..]);
      } else {
        RunKeepsOwners(w, s, actions[1..]);
      }
    }
  }

  /** Can the transaction take its next step now, given some new identifiers? */
  ghost predicate CanStep(w: World, s: State, i: nat) {
    exists newRole, newETag :: Enabled(w, s, Step(i, newRole, newETag))
  }

  lemma UnblockedCanStep(w: World, s: State, i: nat)
    requires i in s.txns && PhaseFits(s.txns[i]) && !s.txns[i].phase.Done? && Unblocked(w, s, i)
    ensures CanStep(w, s, i)
  {
    var newRole := Sets.SomethingNew(s.knownRoles);
    var newETag := Sets.SomethingNew(s.knownETags);
    assert Enabled(w, s, Step(i, newRole, newETag));
  }

  function StepsLeft(x: Txn): nat {
    if x.phase.Done? then 0 else 1 + CustomRoleAlone.StepsLeft(x.phase)
  }

  ghost predicate StepLowers(s: State, a: Action, s': State)
    requires a.Step?
  {
    && a.tid in s.txns && s'.txns.Keys == s.txns.Keys
    && StepsLeft(s'.txns[a.tid]) < StepsLeft(s.txns[a.tid]) <= 10
    && (forall j :: j in s.txns && j != a.tid ==> s'.txns[j] == s.txns[j])
  }

  lemma StepDescends(w: World, s: State, a: Action, s': State)
    requires a.Step? && Move(w, s, a, s')
    ensures StepLowers(s, a, s')
  {
    if !Ended(s, a, s') {
      CustomRoleAlone.AdvanceDescends(w, s.t, s.sys, s.txns[a.tid], a.newRole, a.newETag);
    }
  }

  /** In every reachable state a step takes one off the steps its call has left, ten at most, and leaves
      every other call its own. */
  lemma CallsAreShort(w: World, s: State, actions: seq<Action>, a: Action)
    requires CustomRoleAuthority.Initial(w, s) && s.roleLock == map[] && s.rowLock == map[]
    requires a.Step? && Enabled(w, Run(w, s, actions), a)
    ensures StepLowers(Run(w, s, actions), a, Next(w, Run(w, s, actions), a))
  {
    RunKeepsOwners(w, s, actions);
    NextMoves(w, Run(w, s, actions), a);
    StepDescends(w, Run(w, s, actions), a, Next(w, Run(w, s, actions), a));
  }
}
