/** ETags identify content, and a successful edit changed exactly what its client had read and its actor
    was authorised to change. */
module CustomRoleETags {
  import opened Permissions
  import opened SystemRoles
  import opened CustomRoleTables
  import opened CustomRoleProtocol
  import opened CustomRoleInvariants
  import CustomRoleAuthority

  /** The ETag that the open writes of a transaction will commit. */
  function PendingETag(x: Txn): Option<ETag> {
    var d := x.pending;
    if x.phase.RollingBack? || x.phase.Done? || Subject(x) !in d.rows then None
    else match d.rows[Subject(x)]
      case InsertRow(role) => Some(role.etag)
      case UpdateRow(_, etag) => Some(etag)
      case DeleteRow => None
  }

  ghost predicate ContentOf(t: Tables, content: map<ETag, Content>, r: RoleId)
    requires r in t.roles
  {
    var row := t.roles[r];
    row.etag in content && content[row.etag] == Content(r, row.name, RolePermissions(t, r))
  }

  /** The edit has been authorised and, for the modify statement, its ETag test has been passed. */
  ghost predicate TxnContent(content: map<ETag, Content>, x: Txn) {
    && ((x.req.Update? || x.req.Modify?) && AfterRead(x) ==> Changed(x.seen, NextPerms(x)) <= x.held)
    && (x.phase.TouchRole? || (x.phase.Commit? && x.req.Modify?) ==>
          x.req.Modify? && x.req.etag in content && content[x.req.etag].role == x.req.role
            && content[x.req.etag].perms == x.seen)
  }

  ghost predicate TablesContent(t: Tables, content: map<ETag, Content>) {
    && (forall y :: y in t.rolePerms ==> y.0 in t.roles)
    && (forall r :: r in t.roles ==> ContentOf(t, content, r))
  }

  /** ETags that are still to be committed are new and pairwise different. */
  ghost predicate PendingETagsNew(s: State) {
    && s.content.Keys <= s.knownETags
    && (forall i :: i in s.txns && PendingETag(s.txns[i]).Some? ==>
          PendingETag(s.txns[i]).value in s.knownETags && PendingETag(s.txns[i]).value !in s.content)
    && (forall i, j :: i in s.txns && j in s.txns && i != j && PendingETag(s.txns[i]).Some? ==>
          PendingETag(s.txns[i]) != PendingETag(s.txns[j]))
  }

  ghost predicate ContentInv(w: World, s: State) {
    && TablesContent(s.t, s.content) && PendingETagsNew(s)
    && (forall i :: i in s.txns ==> TxnContent(s.content, s.txns[i]))
  }

  ghost predicate Extends(before: map<ETag, Content>, after: map<ETag, Content>) {
    forall e :: e in before ==> e in after && after[e] == before[e]
  }

  lemma ReadContent(w: World, s: State, x: Txn)
    requires TxnInv(w, s.t, x) && TxnContent(s.content, x) && Reading(x)
    requires forall r :: r in s.t.roles ==> ContentOf(s.t, s.content, r)
    ensures TxnContent(s.content, ReadStep(w, s.t, s.sys, x))
  {
  }

  lemma AdvanceContent(w: World, s: State, x: Txn, newRole: RoleId, newETag: ETag)
    requires TxnInv(w, s.t, x) && TxnContent(s.content, x)
    requires forall r :: r in s.t.roles ==> ContentOf(s.t, s.content, r)
    requires !x.phase.Done? && !x.phase.Commit? && !x.phase.RollingBack?
    ensures TxnContent(s.content, Advance(w, s.t, s.sys, x, newRole, newETag))
  {
    if Reading(x) { ReadContent(w, s, x); }
  }

  lemma AdvanceETag(w: World, t: Tables, sys: Assignments, x: Txn, newRole: RoleId, newETag: ETag)
    requires TxnInv(w, t, x)
    requires !x.phase.Done? && !x.phase.Commit? && !x.phase.RollingBack?
    ensures var e := PendingETag(Advance(w, t, sys, x, newRole, newETag));
      e == PendingETag(x) || e == None || e == Some(newETag)
  {
  }

  /** The ETag of a committed row is the fresh one if the commit wrote the row; otherwise neither the row
      nor its permissions changed. */
  lemma CommitRenewsOrKeeps(w: World, t: Tables, x: Txn, r: RoleId)
    requires TxnInv(w, t, x) && x.phase.Commit? && r in Apply(t, x.pending).roles
    requires x.req.Create? ==> Subject(x) !in t.roles
    ensures var t' := Apply(t, x.pending);
      if r == Subject(x) && r in x.pending.rows then PendingETag(x) == Some(t'.roles[r].etag)
      else r in t.roles && t'.roles[r] == t.roles[r] && RolePermissions(t', r) == RolePermissions(t, r)
  {
    PermissionsAfter(t, x.pending, r);
    if r != Subject(x) {
      CommitKeepsRowIdentity(w, t, x, r);
      CommitLeavesOtherRoles(w, t, x, r);
    } else if r !in x.pending.rows {
      if x.req.Modify? { EditCommitsReplacement(w, t, x); }
    }
  }

  lemma CommitKeepsContentOf(w: World, t: Tables, content: map<ETag, Content>, x: Txn, r: RoleId)
    requires TxnInv(w, t, x) && x.phase.Commit? && r in Apply(t, x.pending).roles
    requires x.req.Create? ==> Subject(x) !in t.roles
    requires forall q :: q in t.roles ==> ContentOf(t, content, q)
    requires PendingETag(x).Some? ==> PendingETag(x).value !in content
    ensures ContentOf(Apply(t, x.pending), content + NewContent(t, x.pending, Subject(x)), r)
  {
    CommitRenewsOrKeeps(w, t, x, r);
    if Subject(x) in Apply(t, x.pending).roles { CommitRenewsOrKeeps(w, t, x, Subject(x)); }
    if !(r == Subject(x) && r in x.pending.rows) { assert ContentOf(t, content, r); }
  }

  lemma CommitKeepsTablesContent(w: World, t: Tables, content: map<ETag, Content>, x: Txn)
    requires TxnInv(w, t, x) && x.phase.Commit? && TablesContent(t, content)
    requires x.req.Create? ==> Subject(x) !in t.roles
    requires PendingETag(x).Some? ==> PendingETag(x).value !in content
    ensures TablesContent(Apply(t, x.pending), content + NewContent(t, x.pending, Subject(x)))
  {
    var t', content' := Apply(t, x.pending), content + NewContent(t, x.pending, Subject(x));
    forall r | r in t'.roles ensures ContentOf(t', content', r) {
      CommitKeepsContentOf(w, t, content, x, r);
    }
    CommitKeepsRowOwners(w, t, x);
  }

  lemma NewContentIsFresh(w: World, t: Tables, content: map<ETag, Content>, x: Txn)
    requires TxnInv(w, t, x) && x.phase.Commit?
    requires x.req.Create? ==> Subject(x) !in t.roles
    requires PendingETag(x).Some? ==> PendingETag(x).value !in content
    ensures Extends(content, content + NewContent(t, x.pending, Subject(x)))
    ensures forall e :: e in NewContent(t, x.pending, Subject(x)) ==> PendingETag(x) == Some(e)
  {
    if Subject(x) in Apply(t, x.pending).roles { CommitRenewsOrKeeps(w, t, x, Subject(x)); }
  }

  lemma ETagsAfterEnd(w: World, s: State, a: Action, s': State)
    requires PendingETagsNew(s) && Ended(s, a, s')
    requires forall e :: e in s'.content ==> e in s.content || PendingETag(s.txns[a.tid]) == Some(e)
    ensures PendingETagsNew(s')
  {
    assert PendingETag(s'.txns[a.tid]) == None;
    forall i | i in s'.txns && PendingETag(s'.txns[i]).Some?
      ensures PendingETag(s'.txns[i]) == PendingETag(s.txns[i]) && PendingETag(s'.txns[i]).value !in s'.content
    {
      assert i != a.tid && s'.txns[i] == s.txns[i];
    }
  }

  lemma EndedTables(w: World, s: State, a: Action, s': State)
    requires TablesContent(s.t, s.content) && PendingETagsNew(s)
    requires Ended(s, a, s') && Ready(w, s, a.tid)
    ensures TablesContent(s'.t, s'.content) && Extends(s.content, s'.content) && PendingETagsNew(s')
  {
    var x := s.txns[a.tid];
    if x.phase.Commit? {
      assert x.req.Create? ==> Uncommitted(x);
      CommitKeepsTablesContent(w, s.t, s.content, x);
      NewContentIsFresh(w, s.t, s.content, x);
    }
    ETagsAfterEnd(w, s, a, s');
  }

  lemma EndedTxns(s: State, a: Action, s': State)
    requires Ended(s, a, s') && Extends(s.content, s'.content)
    requires forall i :: i in s.txns ==> TxnContent(s.content, s.txns[i])
    ensures forall i :: i in s'.txns ==> TxnContent(s'.content, s'.txns[i])
  {
    forall i | i in s'.txns ensures TxnContent(s'.content, s'.txns[i]) {
      assert TxnContent(s.content, s.txns[i]);
    }
  }

  lemma EndedKeepsContent(w: World, s: State, a: Action, s': State)
    requires ContentInv(w, s) && Ended(s, a, s') && Ready(w, s, a.tid)
    ensures ContentInv(w, s') && Extends(s.content, s'.content)
  {
    EndedTables(w, s, a, s');
    EndedTxns(s, a, s');
  }

  lemma ETagsAfterAdvance(w: World, s: State, a: Action, s': State, x': Txn)
    requires PendingETagsNew(s) && Advanced(w, s, a, s', x')
    requires PendingETag(x') == PendingETag(s.txns[a.tid]) || PendingETag(x') == None
      || PendingETag(x') == Some(a.newETag)
    ensures PendingETagsNew(s')
  {
    assert s'.txns[a.tid] == x';
    forall i | i in s'.txns && i != a.tid ensures s'.txns[i] == s.txns[i] {}
  }

  lemma AdvancedKeepsContent(w: World, s: State, a: Action, s': State)
    requires ContentInv(w, s) && a.Step? && a.tid in s.txns
    requires TxnInv(w, s.t, s.txns[a.tid]) && AdvancedBy(w, s, a, s')
    ensures ContentInv(w, s')
  {
    var x := s.txns[a.tid];
    assert TxnContent(s.content, x);
    AdvanceContent(w, s, x, a.newRole, a.newETag);
    AdvanceETag(w, s.t, s.sys, x, a.newRole, a.newETag);
    ETagsAfterAdvance(w, s, a, s', Advance(w, s.t, s.sys, x, a.newRole, a.newETag));
  }

  lemma ETagsAfterBegin(w: World, s: State, a: Action, s': State)
    requires PendingETagsNew(s) && Begun(w, s, a, s')
    ensures PendingETagsNew(s')
  {
    assert PendingETag(s'.txns[a.tid]) == None;
    forall i | i in s'.txns && i != a.tid ensures s'.txns[i] == s.txns[i] {}
  }

  lemma BegunKeepsContent(w: World, s: State, a: Action, s': State)
    requires ContentInv(w, s) && Begun(w, s, a, s')
    ensures ContentInv(w, s')
  {
    ETagsAfterBegin(w, s, a, s');
    assert TxnContent(s.content, Started(w, s.t, a.req));
  }

  lemma DroppedKeepsContent(w: World, s: State, a: Action, s': State)
    requires ContentInv(w, s) && Dropped(s, a, s')
    ensures ContentInv(w, s')
  {
    assert PendingETag(s'.txns[a.tid]) == None;
    forall i | i in s'.txns ensures TxnContent(s'.content, s'.txns[i]) && (i != a.tid ==> s'.txns[i] == s.txns[i]) {
      assert TxnContent(s.content, s.txns[i]);
    }
  }

  lemma FoundedTables(w: World, s: State, a: Action, s': State)
    requires TablesContent(s.t, s.content) && FreshInv(s) && Founded(w, s, a, s') && a.newETag !in s.content
    ensures TablesContent(s'.t, s'.content) && Extends(s.content, s'.content)
    ensures forall e :: e in s'.content ==> e in s.content || e == a.newETag
  {
    forall r | r in s'.t.roles ensures ContentOf(s'.t, s'.content, r) {
      if r != a.newRole {
        FoundingLeavesOtherRoles(s.t, a.org, a.creator, a.newRole, a.newETag, r);
        assert ContentOf(s.t, s.content, r);
      }
    }
  }

  lemma FoundedKeepsContent(w: World, s: State, a: Action, s': State)
    requires ContentInv(w, s) && FreshInv(s) && Founded(w, s, a, s')
    ensures ContentInv(w, s') && Extends(s.content, s'.content)
  {
    FoundedTables(w, s, a, s');
    forall i | i in s'.txns ensures TxnContent(s'.content, s'.txns[i]) {
      assert TxnContent(s.content, s.txns[i]);
    }
  }

  lemma MoveKeepsContent(w: World, s: State, a: Action, s': State)
    requires Inv(w, s) && ContentInv(w, s) && Move(w, s, a, s')
    ensures ContentInv(w, s') && Extends(s.content, s'.content)
  {
    match a
    case Begin(_, _) => BegunKeepsContent(w, s, a, s');
    case System(_) =>
    case Cancel(_) => DroppedKeepsContent(w, s, a, s');
    case CreateOrganization(_, _, _, _) => FoundedKeepsContent(w, s, a, s');
    case Step(tid, _, _) =>
      if Ended(s, a, s') {
        InvReady(w, s, tid);
        EndedKeepsContent(w, s, a, s');
      } else {
        AdvancedKeepsContent(w, s, a, s');
      }
  }

  lemma {:induction false} RunKeepsContent(w: World, s: State, actions: seq<Action>)
    requires Inv(w, s) && ContentInv(w, s)
    ensures var s' := Run(w, s, actions); Inv(w, s') && ContentInv(w, s') && Extends(s.content, s'.content)
    decreases |actions|
  {
    if actions != [] {
      if Enabled(w, s, actions[0]) {
        NextMoves(w, s, actions[0]);
        MoveKeepsInv(w, s, actions[0], Next(w, s, actions[0]));
        MoveKeepsContent(w, s, actions[0], Next(w, s, actions[0]));
        RunKeepsContent(w, Next(w, s, actions[0]), actions[1..]);
      } else {
        RunKeepsContent(w, s, actions[1..]);
      }
    }
  }

  /** A start whose history of ETags is the tables' own: each role row has its own ETag. */
  ghost predicate InitialContent(w: World, s: State) {
    && CustomRoleAuthority.Initial(w, s)
    && (forall r :: r in s.t.roles ==> ContentOf(s.t, s.content, r))
    && s.content.Keys <= s.knownETags
  }

  /** In any two committed states of one run, the same ETag means the same role with the same name and
      the same permissions. */
  lemma ETagsIdentifyContent(w: World, s: State, first: seq<Action>, more: seq<Action>, r: RoleId, r': RoleId)
    requires InitialContent(w, s)
    requires r in Run(w, s, first).t.roles && r' in Run(w, Run(w, s, first), more).t.roles
    requires Run(w, s, first).t.roles[r].etag == Run(w, Run(w, s, first), more).t.roles[r'].etag
    ensures var t, t' := Run(w, s, first).t, Run(w, Run(w, s, first), more).t;
      r == r' && t.roles[r].name == t'.roles[r].name && RolePermissions(t, r) == RolePermissions(t', r)
  {
    RunKeepsContent(w, s, first);
    RunKeepsContent(w, Run(w, s, first), more);
    assert ContentOf(Run(w, s, first).t, Run(w, s, first).content, r);
    assert ContentOf(Run(w, Run(w, s, first), more).t, Run(w, Run(w, s, first), more).content, r');
  }

  /** What a successful edit with the ETag `x.req.etag` commits, in terms of what that ETag stood for. */
  ghost predicate AppliedToWhatWasRead(t: Tables, t': Tables, content: map<ETag, Content>, x: Txn)
    requires (x.req.Update? || x.req.Modify? || x.req.Rename?) && x.req.role in t.roles && x.req.role in t'.roles
  {
    var r := x.req.role;
    var before, after := RolePermissions(t, r), RolePermissions(t', r);
    // The role still has the permissions that the client's ETag stood for, ...
    && x.req.etag in content && content[x.req.etag].role == r && content[x.req.etag].perms == before
    // ... and for a guarded update the row itself is still that very version.
    && (!x.req.Modify? ==> t.roles[r].etag == x.req.etag && content[x.req.etag].name == t.roles[r].name)
    // The outcome is the one computed from them, every change was authorised, and nothing else moved.
    && after == (if x.req.Rename? then before else if x.req.Update? then x.req.perms
                 else (before + x.req.add) - x.req.remove)
    && (!x.req.Rename? ==> Changed(before, after) <= x.held)
    && t' == Replaced(t, r, t'.roles[r], after)
    && t'.roles[r].name == (if !x.req.Modify? && x.req.newName.Some? then x.req.newName.value else t.roles[r].name)
    && (t'.roles[r].etag == t.roles[r].etag <==> x.req.Modify? && after == before)
  }

  lemma CommitAppliesToWhatWasRead(w: World, t: Tables, content: map<ETag, Content>, x: Txn)
    requires TxnInv(w, t, x) && TxnContent(content, x) && x.phase.Commit?
    requires x.req.Update? || x.req.Modify? || x.req.Rename?
    requires x.req.role in t.roles && ContentOf(t, content, x.req.role)
    requires PendingETag(x).Some? ==> PendingETag(x).value !in content
    ensures x.req.role in Apply(t, x.pending).roles
    ensures AppliedToWhatWasRead(t, Apply(t, x.pending), content, x)
  {
    var r, t' := x.req.role, Apply(t, x.pending);
    if x.req.Rename? {
      ReplacedRows(t, x.pending, r, RolePermissions(t, r));
      PermissionsAfter(t, x.pending, r);
    } else {
      EditCommitsReplacement(w, t, x);
    }
    assert t'.roles == t.roles[r := t'.roles[r]];
  }

  /** No lost update: every permission edit or rename that commits, in any interleaving, was applied to
      exactly the permissions its client had read, and changed exactly what was authorised. */
  lemma EditsAreNeverLost(w: World, s: State, actions: seq<Action>, a: Action)
    requires InitialContent(w, s)
    requires var s1 := Run(w, s, actions);
      && a.Step? && Enabled(w, s1, a) && s1.txns[a.tid].phase.Commit?
      && (var req := s1.txns[a.tid].req; req.Update? || req.Modify? || req.Rename?)
    ensures var s1 := Run(w, s, actions);
      var x, t' := s1.txns[a.tid], Next(w, s1, a).t;
      x.req.role in s1.t.roles && x.req.role in t'.roles && AppliedToWhatWasRead(s1.t, t', s1.content, x)
  {
    RunKeepsContent(w, s, actions);
    EditReady(w, Run(w, s, actions), a.tid);
    EditAppliesToWhatWasRead(w, Run(w, s, actions), a);
  }

  lemma EditReady(w: World, s: State, tid: nat)
    requires Inv(w, s) && ContentInv(w, s) && tid in s.txns && s.txns[tid].phase.Commit?
    requires var req := s.txns[tid].req; req.Update? || req.Modify? || req.Rename?
    ensures var x := s.txns[tid];
      && TxnInv(w, s.t, x) && TxnContent(s.content, x) && x.req.role in s.t.roles
           && ContentOf(s.t, s.content, x.req.role)
      && (PendingETag(x).Some? ==> PendingETag(x).value !in s.content)
  {
    assert TxnInv(w, s.t, s.txns[tid]);
  }

  lemma EditAppliesToWhatWasRead(w: World, s: State, a: Action)
    requires a.Step? && Enabled(w, s, a) && s.txns[a.tid].phase.Commit?
    requires var x := s.txns[a.tid];
      && (x.req.Update? || x.req.Modify? || x.req.Rename?)
      && TxnInv(w, s.t, x) && TxnContent(s.content, x) && x.req.role in s.t.roles
           && ContentOf(s.t, s.content, x.req.role)
      && (PendingETag(x).Some? ==> PendingETag(x).value !in s.content)
    ensures var x, t' := s.txns[a.tid], Next(w, s, a).t;
      x.req.role in t'.roles && AppliedToWhatWasRead(s.t, t', s.content, x)
  {
    CommitAppliesToWhatWasRead(w, s.t, s.content, s.txns[a.tid]);
    CommitsItsRows(w, s, a);
  }

  lemma CommitsItsRows(w: World, s: State, a: Action)
    requires a.Step? && Enabled(w, s, a) && s.txns[a.tid].phase.Commit?
    ensures Next(w, s, a).t == Apply(s.t, s.txns[a.tid].pending)
  {
  }
}
