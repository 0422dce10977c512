/** Role names are unique within their organization, regardless of case, in every reachable committed state:
    what a call has written or entered in the index of names keeps others from taking it. */
module CustomRoleNames {
  import opened Permissions
  import opened SystemRoles
  import opened CustomRoleTables
  import opened CustomRoleProtocol
  import opened CustomRoleInvariants
  import CustomRoleAuthority

  ghost predicate SameName(t: Tables, r: RoleId, org: OrgId, name: string) {
    Owns(t, org, r) && Lower(t.roles[r].name) == Lower(name)
  }

  ghost predicate UniqueNames(t: Tables) {
    forall q, r :: q in t.roles && r in t.roles && q != r && t.roles[q].org == t.roles[r].org ==>
      Lower(t.roles[q].name) != Lower(t.roles[r].name)
  }

  /** No committed role but its own has the name that the call has entered. */
  ghost predicate EntryIsFree(t: Tables, x: Txn) {
    x.named && NamesRole(x.req) ==> !NameTaken(t, x.org, WantedName(x.req), Subject(x))
  }

  ghost predicate EntriesDiffer(x: Txn, y: Txn) {
    x.named && y.named && NamesRole(x.req) && NamesRole(y.req) && x.org == y.org ==>
      Lower(WantedName(x.req)) != Lower(WantedName(y.req))
  }

  ghost predicate NamesInv(s: State) {
    && UniqueNames(s.t)
    && (forall i :: i in s.txns ==> EntryIsFree(s.t, s.txns[i]))
    && (forall i, j :: i in s.txns && j in s.txns && i != j ==> EntriesDiffer(s.txns[i], s.txns[j]))
  }

  /** The name a role has after a commit. */
  lemma CommittedName(w: World, t: Tables, x: Txn, r: RoleId)
    requires TxnInv(w, t, x) && x.phase.Commit? && r in Apply(t, x.pending).roles
    requires x.req.Create? ==> Subject(x) !in t.roles
    ensures var role := Apply(t, x.pending).roles[r];
      if r == Subject(x) && NamesRole(x.req) then x.named && role.org == x.org && role.name == WantedName(x.req)
      else r in t.roles && role.org == t.roles[r].org && role.name == t.roles[r].name
  {
    CommitKeepsRowIdentity(w, t, x, r);
  }

  lemma CommitKeepsUniqueNames(w: World, t: Tables, x: Txn)
    requires TxnInv(w, t, x) && x.phase.Commit? && UniqueNames(t) && EntryIsFree(t, x)
    requires x.req.Create? ==> Subject(x) !in t.roles
    ensures UniqueNames(Apply(t, x.pending))
  {
    var t' := Apply(t, x.pending);
    forall q, r | q in t'.roles && r in t'.roles && q != r && t'.roles[q].org == t'.roles[r].org
      ensures Lower(t'.roles[q].name) != Lower(t'.roles[r].name)
    {
      CommittedName(w, t, x, q);
      CommittedName(w, t, x, r);
    }
  }

  lemma CommitKeepsEntry(w: World, t: Tables, x: Txn, y: Txn)
    requires TxnInv(w, t, x) && x.phase.Commit? && EntryIsFree(t, y) && EntriesDiffer(x, y)
    requires x.req.Create? ==> Subject(x) !in t.roles
    ensures EntryIsFree(Apply(t, x.pending), y)
  {
    var t' := Apply(t, x.pending);
    if y.named && NamesRole(y.req) && NameTaken(t', y.org, WantedName(y.req), Subject(y)) {
      var r :| r in t'.roles && r != Subject(y) && t'.roles[r].org == y.org
        && Lower(t'.roles[r].name) == Lower(WantedName(y.req));
      CommittedName(w, t, x, r);
    }
  }

  lemma EndedKeepsNames(w: World, s: State, a: Action, s': State)
    requires NamesInv(s) && Ended(s, a, s') && Ready(w, s, a.tid)
    ensures NamesInv(s')
  {
    var x := s.txns[a.tid];
    if x.phase.Commit? { CommitKeepsUniqueNames(w, s.t, x); }
    forall i | i in s'.txns ensures EntryIsFree(s'.t, s'.txns[i]) {
      if i != a.tid {
        assert EntryIsFree(s.t, s.txns[i]) && EntriesDiffer(x, s.txns[i]);
        if x.phase.Commit? { CommitKeepsEntry(w, s.t, x, s.txns[i]); }
      }
    }
    forall i, j | i in s'.txns && j in s'.txns && i != j ensures EntriesDiffer(s'.txns[i], s'.txns[j]) {
      assert EntriesDiffer(s.txns[i], s.txns[j]);
    }
  }

  lemma AdvanceKeepsOrg(w: World, t: Tables, sys: Assignments, x: Txn, newRole: RoleId, newETag: ETag)
    requires TxnInv(w, t, x) && !x.phase.Done? && !x.phase.Commit? && !x.phase.RollingBack?
    ensures var x' := Advance(w, t, sys, x, newRole, newETag);
      x'.named ==> x'.org == x.org && Subject(x') == Subject(x)
  {
  }

  lemma NewEntryDiffers(s: State, x: Txn, x': Txn, j: nat)
    requires j in s.txns && !s.txns[j].phase.Done? && x'.req == x.req && (x'.named ==> x'.org == x.org)
    requires x'.named && NamesRole(x.req) && !HoldsName(s.t, s.txns[j], x.org, WantedName(x.req))
    ensures EntriesDiffer(x', s.txns[j]) && EntriesDiffer(s.txns[j], x')
  {
  }

  lemma AdvancedKeepsNames(w: World, s: State, a: Action, s': State)
    requires NamesInv(s) && a.Step? && a.tid in s.txns && TxnInv(w, s.t, s.txns[a.tid]) && AdvancedBy(w, s, a, s')
    requires forall j :: j in s.txns ==> Indexed(s.txns[j])
    ensures NamesInv(s')
  {
    var x, x' := s.txns[a.tid], s'.txns[a.tid];
    AdvanceKeepsOrg(w, s.t, s.sys, x, a.newRole, a.newETag);
    assert EntryIsFree(s.t, x);
    forall j | j in s.txns && j != a.tid ensures EntriesDiffer(x', s.txns[j]) && EntriesDiffer(s.txns[j], x') {
      assert EntriesDiffer(x, s.txns[j]) && EntriesDiffer(s.txns[j], x);
      if x'.named && !x.named && !s.txns[j].phase.Done? { NewEntryDiffers(s, x, x', j); }
    }
    forall i, j | i in s'.txns && j in s'.txns && i != j ensures EntriesDiffer(s'.txns[i], s'.txns[j]) {
      if i != a.tid && j != a.tid { assert EntriesDiffer(s.txns[i], s.txns[j]); }
    }
  }

  lemma DroppedKeepsNames(s: State, a: Action, s': State)
    requires NamesInv(s) && Dropped(s, a, s')
    ensures NamesInv(s')
  {
    forall i | i in s'.txns ensures EntryIsFree(s'.t, s'.txns[i]) {
      assert EntryIsFree(s.t, s.txns[i]);
    }
    forall i, j | i in s'.txns && j in s'.txns && i != j ensures EntriesDiffer(s'.txns[i], s'.txns[j]) {
      assert EntriesDiffer(s.txns[i], s.txns[j]);
    }
  }

  lemma FoundedName(w: World, s: State, a: Action, s': State, r: RoleId)
    requires Founded(w, s, a, s') && r in s'.t.roles
    ensures if r == a.newRole then s'.t.roles[r] == Role(a.org, ADMINISTRATOR_NAME, true, a.newETag)
            else r in s.t.roles && s'.t.roles[r] == s.t.roles[r]
  {
  }

  lemma FoundedKeepsNames(w: World, s: State, a: Action, s': State)
    requires NamesInv(s) && Founded(w, s, a, s') && forall j :: j in s.txns ==> Indexed(s.txns[j])
    ensures NamesInv(s')
  {
    forall q, r | q in s'.t.roles && r in s'.t.roles && q != r && s'.t.roles[q].org == s'.t.roles[r].org
      ensures Lower(s'.t.roles[q].name) != Lower(s'.t.roles[r].name)
    {
      FoundedName(w, s, a, s', q);
      FoundedName(w, s, a, s', r);
    }
    forall i | i in s'.txns ensures EntryIsFree(s'.t, s'.txns[i]) {
      var y := s.txns[i];
      assert EntryIsFree(s.t, y) && !HoldsName(s.t, y, a.org, ADMINISTRATOR_NAME);
      if y.named && NamesRole(y.req) && NameTaken(s'.t, y.org, WantedName(y.req), Subject(y)) {
        var r :| r in s'.t.roles && r != Subject(y) && s'.t.roles[r].org == y.org
          && Lower(s'.t.roles[r].name) == Lower(WantedName(y.req));
        FoundedName(w, s, a, s', r);
      }
    }
  }

  lemma BegunKeepsNames(w: World, s: State, a: Action, s': State)
    requires NamesInv(s) && Begun(w, s, a, s')
    ensures NamesInv(s')
  {
    forall i, j | i in s'.txns && j in s'.txns && i != j ensures EntriesDiffer(s'.txns[i], s'.txns[j]) {
      if i != a.tid && j != a.tid { assert EntriesDiffer(s.txns[i], s.txns[j]); }
    }
  }

  lemma MoveKeepsNames(w: World, s: State, a: Action, s': State)
    requires Inv(w, s) && NamesInv(s) && Move(w, s, a, s')
    ensures NamesInv(s')
  {
    forall j | j in s.txns ensures Indexed(s.txns[j]) { assert TxnInv(w, s.t, s.txns[j]); }
    match a
    case Begin(_, _) => BegunKeepsNames(w, s, a, s');
    case System(_) =>
    case Cancel(_) => DroppedKeepsNames(s, a, s');
    case CreateOrganization(_, _, _, _) => FoundedKeepsNames(w, s, a, s');
    case Step(tid, _, _) =>
      if Ended(s, a, s') {
        InvReady(w, s, tid);
        EndedKeepsNames(w, s, a, s');
      } else {
        AdvancedKeepsNames(w, s, a, s');
      }
  }

  lemma {:induction false} RunKeepsNames(w: World, s: State, actions: seq<Action>)
    requires Inv(w, s) && NamesInv(s)
    ensures Inv(w, Run(w, s, actions)) && NamesInv(Run(w, s, actions))
    decreases |actions|
  {
    if actions != [] {
      if Enabled(w, s, actions[0]) {
        NextMoves(w, s, actions[0]);
        MoveKeepsInv(w, s, actions[0], Next(w, s, actions[0]));
        MoveKeepsNames(w, s, actions[0], Next(w, s, actions[0]));
        RunKeepsNames(w, Next(w, s, actions[0]), actions[1..]);
      } else {
        RunKeepsNames(w, s, actions[1..]);
      }
    }
  }

  /** In every reachable committed state no organization has two roles whose names differ only in case. */
  lemma NamesStayUnique(w: World, s: State, actions: seq<Action>)
    requires CustomRoleAuthority.Initial(w, s) && UniqueNames(s.t)
    ensures UniqueNames(Run(w, s, actions).t)
  {
    RunKeepsNames(w, s, actions);
  }

  /** A call that leaves its role's name as it is, or changes only its case, waits for nobody at the index
      and is never told that the name is taken. */
  lemma KeepingItsNameIsFree(w: World, s: State, actions: seq<Action>, i: nat, j: nat)
    requires CustomRoleAuthority.Initial(w, s) && UniqueNames(s.t)
    requires var s1 := Run(w, s, actions);
      && i in s1.txns && j in s1.txns && j != i && s1.txns[i].rowLocked && !s1.txns[i].req.Create?
    ensures var s1 := Run(w, s, actions); var x := s1.txns[i];
      && x.req.role in s1.t.roles
      && !HoldsName(s1.t, s1.txns[j], x.org, s1.t.roles[x.req.role].name)
      && !NameTaken(s1.t, x.org, s1.t.roles[x.req.role].name, x.req.role)
  {
    RunKeepsNames(w, s, actions);
    OwnNameIsFree(w, Run(w, s, actions), i, j);
  }

  lemma OwnNameIsFree(w: World, s: State, i: nat, j: nat)
    requires Inv(w, s) && NamesInv(s) && i in s.txns && j in s.txns && i != j
    requires s.txns[i].rowLocked && !s.txns[i].req.Create?
    ensures var x := s.txns[i];
      && x.req.role in s.t.roles
      && !HoldsName(s.t, s.txns[j], x.org, s.t.roles[x.req.role].name)
      && !NameTaken(s.t, x.org, s.t.roles[x.req.role].name, x.req.role)
  {
    var x, y := s.txns[i], s.txns[j];
    assert TxnInv(w, s.t, x) && TxnInv(w, s.t, y) && EntryIsFree(s.t, y);
    if y.rowLocked { assert s.rowLock[y.req.role] == j && s.rowLock[x.req.role] == i; }
    if y.named && NamesRole(y.req) {
      assert x.req.role != Subject(y);
    }
  }
}
