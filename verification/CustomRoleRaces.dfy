/** Short runs of two calls, from tables with one or two roles, in which nobody makes a mistake and yet a call
    fails, waits for ever, or grants more than its actor holds. CustomRoleErrors, CustomRoleDeadlock and
    CustomRoleGrants say exactly when that happens. */
module CustomRoleRaces {
  import opened Permissions
  import opened SystemRoles
  import opened CustomRoleTables
  import opened CustomRoleProtocol
  import opened CustomRoleInvariants
  import opened CustomRoleProgress
  import opened CustomRoleDeadlock
  import opened Graphs
  import CustomRoleAuthority

  // ---- Traces -------------------------------------------------------------------------------------

  /** Everything about a state except its history of ETags; all identifiers below `k` are in use. */
  datatype Frame = Frame(w: World, t: Tables, sys: Assignments, txns: map<nat, Txn>,
                         roleLock: map<RoleId, nat>, rowLock: map<RoleId, nat>, k: nat) {
    /** Call `tid` begins. */
    function Begun(tid: nat, req: Request): Frame { this.(txns := txns[tid := Started(w, t, req)]) }

    /** Call `tid` takes a step and becomes `x`. */
    function Stepped(tid: nat, x: Txn): Frame
      requires tid in txns && !x.req.Create?
    {
      this.(txns := txns[tid := x], k := k + 1,
            roleLock := if x.locked && !txns[tid].locked then roleLock[x.req.role := tid] else roleLock,
            rowLock := if x.rowLocked && !txns[tid].rowLocked then rowLock[x.req.role := tid] else rowLock)
    }

    /** Call `tid` commits. */
    function Committed(tid: nat): Frame
      requires tid in txns
    {
      var x := txns[tid].(phase := Done(None), locked := false, rowLocked := false, shared := false, named := false);
      this.(t := Apply(t, txns[tid].pending), txns := txns[tid := x], k := k + 1,
            roleLock := Without(roleLock, tid), rowLock := Without(rowLock, tid))
    }

    predicate Free(tid: nat)
      requires tid in txns
    {
      Unblocked(w, State(t, sys, txns, roleLock, rowLock, {}, {}, map[]), tid)
    }

    /** `x` is what the next step of `tid` makes of it. */
    predicate LeadsTo(tid: nat, x: Txn) {
      && tid in txns && PhaseFits(txns[tid]) && !txns[tid].req.Create? && x.req == txns[tid].req
      && !txns[tid].phase.Done? && !txns[tid].phase.Commit? && !txns[tid].phase.RollingBack?
      && x == Advance(w, t, sys, txns[tid], k, k)
    }
  }

  /** Actions that have led from a start to a state that looks like `f`. */
  datatype Trace = Trace(actions: seq<Action>, f: Frame)

  ghost predicate Reaches(s: State, r: Trace) {
    var s' := Run(r.f.w, s, r.actions);
    && s'.t == r.f.t && s'.sys == r.f.sys && s'.txns == r.f.txns
    && s'.roleLock == r.f.roleLock && s'.rowLock == r.f.rowLock
    && (forall n :: n in s'.knownRoles || n in s'.knownETags ==> n < r.f.k)
  }

  ghost predicate StartsWith(s: State, f: Frame) {
    f.txns == map[] && f.roleLock == map[] && f.rowLock == map[]
    && Reaches(s, Trace([], f)) && s.t.roles.Keys <= s.knownRoles
  }

  lemma {:induction false} RunOneMore(w: World, s: State, actions: seq<Action>, a: Action)
    requires Enabled(w, Run(w, s, actions), a)
    ensures Run(w, s, actions + [a]) == Next(w, Run(w, s, actions), a)
    decreases |actions|
  {
    if actions == [] {
      assert actions + [a] == [a];
      assert Run(w, s, [a]) == Run(w, Next(w, s, a), [a][1..]);
    } else {
      assert (actions + [a])[1..] == actions[1..] + [a];
      RunOneMore(w, if Enabled(w, s, actions[0]) then Next(w, s, actions[0]) else s, actions[1..], a);
    }
  }

  lemma Begins(s: State, r: Trace, tid: nat, req: Request) returns (r': Trace)
    requires Reaches(s, r) && tid !in r.f.txns && Validated(req) && !req.Create? && req.role < r.f.k
    requires forall i :: i in r.f.txns ==> r.f.txns[i].minted == None
    ensures Reaches(s, r') && r'.f == r.f.Begun(tid, req)
  {
    r' := Trace(r.actions + [Begin(tid, req)], r.f.Begun(tid, req));
    RunOneMore(r.f.w, s, r.actions, Begin(tid, req));
  }

  lemma Steps(s: State, r: Trace, tid: nat, x: Txn) returns (r': Trace)
    requires Reaches(s, r) && r.f.LeadsTo(tid, x) && r.f.Free(tid)
    ensures Reaches(s, r') && r'.f == r.f.Stepped(tid, x)
  {
    var a := Step(tid, r.f.k, r.f.k);
    r' := Trace(r.actions + [a], r.f.Stepped(tid, x));
    RunOneMore(r.f.w, s, r.actions, a);
    StepMoves(r.f.w, Run(r.f.w, s, r.actions), a);
  }

  lemma Commits(s: State, r: Trace, tid: nat) returns (r': Trace)
    requires Reaches(s, r) && tid in r.f.txns && r.f.txns[tid].phase.Commit?
    ensures Reaches(s, r') && r'.f == r.f.Committed(tid)
  {
    var a := Step(tid, r.f.k, r.f.k);
    r' := Trace(r.actions + [a], r.f.Committed(tid));
    assert Enabled(r.f.w, Run(r.f.w, s, r.actions), a);
    RunOneMore(r.f.w, s, r.actions, a);
  }

  /** The next step takes no lock. */
  predicate Quiet(x: Txn) {
    && !x.phase.LockRole? && !x.phase.UpdateRole? && !x.phase.TouchRole? && !x.phase.DeleteRole?
    && !x.phase.CompleteInsert? && !x.phase.IndexName? && !(x.phase.Insert? && Unassigns(x.req))
    && (x.phase.DeleteOrgAssignments? || x.phase.DeleteRolePermissions? ==> x.pending == NO_CHANGE)
  }

  lemma QuietIsFree(f: Frame, tid: nat)
    requires tid in f.txns && Quiet(f.txns[tid])
    ensures f.Free(tid)
  {
  }

  /** A step that takes no lock. */
  lemma Goes(s: State, r: Trace, tid: nat, x: Txn) returns (r': Trace)
    requires Reaches(s, r) && r.f.LeadsTo(tid, x) && Quiet(r.f.txns[tid])
    requires x.locked == r.f.txns[tid].locked && x.rowLocked == r.f.txns[tid].rowLocked
    ensures Reaches(s, r') && r'.f == r.f.(txns := r.f.txns[tid := x], k := r.f.k + 1)
  {
    QuietIsFree(r.f, tid);
    r' := Steps(s, r, tid, x);
  }

  lemma StartIsStart(s: State, f: Frame)
    requires StartsWith(s, f) && CustomRoleAuthority.ForeignKeys(f.w, f.t)
    ensures CustomRoleDeadlock.Start(f.w, s)
  {
    assert s == Run(f.w, s, []);
  }

  // ---- Two renames ----------------------------------------------------------------------------------

  const WORLD := World(Env({0}, {}, map[]), {0}, map[0 := 0], {(0, 0)})
  const ROLE_A := Role(0, "a", false, 2)
  const ROLE_B := Role(0, "b", false, 3)
  const ONE := Tables(map[0 := ROLE_A], {}, {}, {})
  const TWO := Tables(map[0 := ROLE_A, 1 := ROLE_B], {}, {}, {})

  function Alone(t: Tables): Frame { Frame(WORLD, t, {}, map[], map[], map[], 4) }

  function Pair(t: Tables, x0: Txn, x1: Txn, roleLock: map<RoleId, nat>, rowLock: map<RoleId, nat>, k: nat): Frame {
    Frame(WORLD, t, {}, map[0 := x0, 1 := x1], roleLock, rowLock, k)
  }

  /** A rename of role `r` with its ETag, begun on tables `t`. */
  function Renaming(t: Tables, r: RoleId, name: string, phase: Phase): Txn {
    Started(WORLD, t, Rename(0, r, r + 2, Some(name))).(phase := phase)
  }

  /** Its row has been written. */
  function Renamed(t: Tables, r: RoleId, name: string, etag: ETag, phase: Phase): Txn {
    Renaming(t, r, name, phase).(rowLocked := !phase.Done?, named := phase.Commit?,
      pending := NO_CHANGE.(rows := map[r := UpdateRow(Some(name), etag)]))
  }

  lemma RenameLooks(f: Frame, tid: nat, r: RoleId, name: string)
    requires f.w == WORLD && f.sys == {} && tid in f.txns && f.txns[tid] == Renaming(f.t, r, name, UpdateSnapshot)
    ensures f.LeadsTo(tid, Renaming(f.t, r, name, UpdateRole))
  {
  }

  lemma RenameWrites(f: Frame, tid: nat, r: RoleId, name: string)
    requires f.w == WORLD && f.sys == {} && tid in f.txns && f.txns[tid] == Renaming(f.t, r, name, UpdateRole)
    requires Owns(f.t, 0, r) && f.t.roles[r].etag == r + 2 && NameCheck(name) && r !in f.rowLock
    requires forall j :: j in f.txns ==> !f.txns[j].shared
    ensures f.LeadsTo(tid, Renamed(f.t, r, name, f.k, IndexName)) && f.Free(tid)
  {
  }

  lemma RenamesBegin(s: State, t: Tables, r0: RoleId, r1: RoleId, n0: string, n1: string) returns (r: Trace)
    requires StartsWith(s, Alone(t)) && r0 < 2 && r1 < 2
    ensures Reaches(s, r)
    ensures r.f == Pair(t, Renaming(t, r0, n0, UpdateSnapshot), Renaming(t, r1, n1, UpdateSnapshot), map[], map[], 4)
  {
    r := Trace([], Alone(t));
    r := Begins(s, r, 0, Rename(0, r0, r0 + 2, Some(n0)));
    r := Begins(s, r, 1, Rename(0, r1, r1 + 2, Some(n1)));
  }

  lemma RenamesLook(s: State, t: Tables, r0: RoleId, r1: RoleId, n0: string, n1: string) returns (r: Trace)
    requires StartsWith(s, Alone(t)) && r0 < 2 && r1 < 2
    ensures Reaches(s, r)
    ensures r.f == Pair(t, Renaming(t, r0, n0, UpdateRole), Renaming(t, r1, n1, UpdateRole), map[], map[], 6)
  {
    r := RenamesBegin(s, t, r0, r1, n0, n1);
    RenameLooks(r.f, 0, r0, n0);
    r := Goes(s, r, 0, Renaming(t, r0, n0, UpdateRole));
    RenameLooks(r.f, 1, r1, n1);
    r := Goes(s, r, 1, Renaming(t, r1, n1, UpdateRole));
  }

  lemma FirstSwapIsWritten()
    ensures var f := Pair(TWO, Renaming(TWO, 0, "b", UpdateRole), Renaming(TWO, 1, "a", UpdateRole), map[], map[], 6);
      f.Stepped(0, Renamed(TWO, 0, "b", 6, IndexName)) ==
      Pair(TWO, Renamed(TWO, 0, "b", 6, IndexName), Renaming(TWO, 1, "a", UpdateRole), map[], map[0 := 0], 7)
  {
  }

  lemma FirstSwapWrites(s: State) returns (r: Trace)
    requires StartsWith(s, Alone(TWO))
    ensures Reaches(s, r)
    ensures r.f ==
      Pair(TWO, Renamed(TWO, 0, "b", 6, IndexName), Renaming(TWO, 1, "a", UpdateRole), map[], map[0 := 0], 7)
  {
    r := RenamesLook(s, TWO, 0, 1, "b", "a");
    RenameWrites(r.f, 0, 0, "b");
    FirstSwapIsWritten();
    r := Steps(s, r, 0, Renamed(TWO, 0, "b", 6, IndexName));
  }

  lemma BothSwapsWrite(s: State) returns (r: Trace)
    requires StartsWith(s, Alone(TWO))
    ensures Reaches(s, r) && r.f.w == WORLD && r.f.t == TWO
    ensures r.f.txns == map[0 := Renamed(TWO, 0, "b", 6, IndexName), 1 := Renamed(TWO, 1, "a", 7, IndexName)]
  {
    r := FirstSwapWrites(s);
    RenameWrites(r.f, 1, 1, "a");
    r := Steps(s, r, 1, Renamed(TWO, 1, "a", 7, IndexName));
  }

  /** Two members swap the names of two roles: both have written their rows, and each waits for the name that
      the other is giving up. Neither can ever take another step. */
  lemma SwappedNamesDeadlock(s: State) returns (r: Trace)
    requires StartsWith(s, Alone(TWO))
    ensures Reaches(s, r) && r.f.w == WORLD
    ensures var s' := Run(WORLD, s, r.actions);
      && s'.txns.Keys == {0, 1} && Cycle(Asks(s'), [0, 1])
      && s'.txns[0].req == Rename(0, 0, 2, Some("b")) && s'.txns[1].req == Rename(0, 1, 3, Some("a"))
      && Unfinished(s', 0) && !CanStep(WORLD, s', 0) && Unfinished(s', 1) && !CanStep(WORLD, s', 1)
  {
    r := BothSwapsWrite(s);
    SwapIsCycle(Run(WORLD, s, r.actions));
  }

  lemma SwapIsCycle(s: State)
    requires s.t == TWO
    requires s.txns == map[0 := Renamed(TWO, 0, "b", 6, IndexName), 1 := Renamed(TWO, 1, "a", 7, IndexName)]
    ensures Cycle(Asks(s), [0, 1]) && !CanStep(WORLD, s, 0) && !CanStep(WORLD, s, 1)
  {
    assert AsksFor(s, 0, 1) && AsksFor(s, 1, 0);
    assert (0, 1) in Asks(s) && (1, 0) in Asks(s);
    forall k | 0 <= k < 2 ensures ([0, 1][k], After([0, 1], k)) in Asks(s) {}
    MemberIsBlocked(WORLD, s, [0, 1], 0);
    MemberIsBlocked(WORLD, s, [0, 1], 1);
  }

  // ---- A rename that overtakes another call -----------------------------------------------------------

  /** Call 0 has written its row, under the name "b", before it is in the index. */
  function Winner(k: nat, phase: Phase): Txn { Renamed(ONE, 0, "b", k, phase) }

  function After0(etag: ETag): Tables { ONE.(roles := map[0 := Role(0, "b", false, etag)]) }

  lemma WinnerIsFree(f: Frame, x1: Txn)
    requires 0 < f.k && f.w == WORLD && f.sys == {} && f.t == ONE && !x1.named && !x1.rowLocked
    requires f.txns == map[0 := Winner(f.k - 1, IndexName), 1 := x1]
    ensures f.LeadsTo(0, Winner(f.k - 1, Commit)) && f.Free(0)
  {
  }

  lemma WinnerCommits(etag: ETag)
    ensures Apply(ONE, Winner(etag, Commit).pending) == After0(etag)
  {
  }

  lemma RowIsWritten(x1: Txn, roleLock: map<RoleId, nat>, k: nat)
    ensures Pair(ONE, Renaming(ONE, 0, "b", UpdateRole), x1, roleLock, map[], k).Stepped(0, Winner(k, IndexName)) ==
            Pair(ONE, Winner(k, IndexName), x1, roleLock, map[0 := 0], k + 1)
  {
  }

  lemma RenameIsWritten(s: State, before: Trace, x1: Txn, roleLock: map<RoleId, nat>, k: nat) returns (r: Trace)
    requires Reaches(s, before) && before.f == Pair(ONE, Renaming(ONE, 0, "b", UpdateRole), x1, roleLock, map[], k)
    requires !x1.shared
    ensures Reaches(s, r) && r.f == Pair(ONE, Winner(k, IndexName), x1, roleLock, map[0 := 0], k + 1)
  {
    RenameWrites(before.f, 0, 0, "b");
    RowIsWritten(x1, roleLock, k);
    r := Steps(s, before, 0, Winner(k, IndexName));
  }

  lemma RenameIsIndexed(s: State, before: Trace, x1: Txn, roleLock: map<RoleId, nat>, k: nat) returns (r: Trace)
    requires Reaches(s, before) && before.f == Pair(ONE, Winner(k, IndexName), x1, roleLock, map[0 := 0], k + 1)
    requires !x1.named && !x1.rowLocked
    ensures Reaches(s, r) && r.f == Pair(ONE, Winner(k, Commit), x1, roleLock, map[0 := 0], k + 2)
  {
    WinnerIsFree(before.f, x1);
    r := Steps(s, before, 0, Winner(k, Commit));
  }

  lemma RenameIsCommitted(x1: Txn, roleLock: map<RoleId, nat>, k: nat)
    requires forall q :: q in roleLock ==> roleLock[q] != 0
    ensures Pair(ONE, Winner(k, Commit), x1, roleLock, map[0 := 0], k + 2).Committed(0) ==
            Pair(After0(k), Winner(k, Done(None)), x1, roleLock, map[], k + 3)
  {
    WinnerCommits(k);
    assert Without(map[0 := 0], 0) == map[] && Without(roleLock, 0) == roleLock;
  }

  /** A rename that has looked at its row writes it and commits, while the other call waits for the row. */
  lemma RenameWins(s: State, before: Trace, x1: Txn, roleLock: map<RoleId, nat>, k: nat) returns (r: Trace)
    requires Reaches(s, before) && before.f == Pair(ONE, Renaming(ONE, 0, "b", UpdateRole), x1, roleLock, map[], k)
    requires !x1.shared && !x1.named && !x1.rowLocked && forall q :: q in roleLock ==> roleLock[q] != 0
    ensures Reaches(s, r)
    ensures r.f == Pair(After0(k), Winner(k, Done(None)), x1, roleLock, map[], k + 3)
  {
    r := RenameIsWritten(s, before, x1, roleLock, k);
    r := RenameIsIndexed(s, r, x1, roleLock, k);
    RenameIsCommitted(x1, roleLock, k);
    r := Commits(s, r, 0);
  }

  function Loser(phase: Phase): Txn { Renaming(ONE, 0, "c", phase) }

  lemma LoserIsTooLate(f: Frame, etag: ETag)
    requires f.w == WORLD && f.sys == {} && f.t == After0(etag) && etag != 2 && f.rowLock == map[]
    requires f.txns == map[0 := Winner(etag, Done(None)), 1 := Loser(UpdateRole)]
    ensures f.LeadsTo(1, Loser(RollingBack(Database(NoRows))).(failed := Some(Database(NoRows)))) && f.Free(1)
  {
  }

  /** Two members rename the same role, each with the ETag it has just read. The second is told that there
      is no such role, although it is there under a newer ETag. */
  lemma LosingRenameIsToldNotFound(s: State) returns (r: Trace)
    requires StartsWith(s, Alone(ONE))
    ensures var s' := Run(WORLD, s, r.actions);
      && s'.txns.Keys == {0, 1} && s'.txns[0].phase == Done(None)
      && s'.txns[1].req == Rename(0, 0, 2, Some("c")) && s'.txns[1].phase == RollingBack(Database(NoRows))
      && s'.t.roles == map[0 := Role(0, "b", false, 6)]
  {
    r := RenamesLook(s, ONE, 0, 0, "b", "c");
    r := RenameWins(s, r, Loser(UpdateRole), map[], 6);
    LoserIsTooLate(r.f, 6);
    r := Steps(s, r, 1, Loser(RollingBack(Database(NoRows))).(failed := Some(Database(NoRows))));
  }

  /** An edit of the role's permissions, which are and stay empty, with a new name. */
  function Editing(phase: Phase): Txn {
    Started(WORLD, ONE, Update(0, 0, 0, 2, Some("c"), {})).(
      phase := phase, locked := !phase.ReadActor? && !phase.LockRole?)
  }

  lemma NothingHeld(t: Tables)
    requires t.rolePerms == {}
    ensures OrgPermissions(WORLD, t, {}, 0, 0) == {} && RolePermissions(t, 0) == {} && Changed({}, {}) == {}
    ensures RowsOf(0, {}) == {} && Apply(t, NO_CHANGE) == t
  {
    assert Apply(t, NO_CHANGE).roles == t.roles;
  }

  lemma EditReads(f: Frame, from: Phase, to: Phase)
    requires f.w == WORLD && f.sys == {} && f.t == ONE && 1 in f.txns && f.txns[1] == Editing(from)
    requires (from, to) in {(ReadActor, LockRole), (LockRole, ReadRole), (ReadRole, CheckScope),
                            (CheckScope, UpdateSnapshot), (UpdateSnapshot, UpdateRole)}
    ensures f.LeadsTo(1, Editing(to))
  {
    NothingHeld(ONE);
  }

  lemma EditBegins(s: State) returns (r: Trace)
    requires StartsWith(s, Alone(ONE))
    ensures Reaches(s, r)
    ensures r.f == Pair(ONE, Renaming(ONE, 0, "b", UpdateSnapshot), Editing(LockRole), map[], map[], 5)
  {
    r := Trace([], Alone(ONE));
    r := Begins(s, r, 0, Rename(0, 0, 2, Some("b")));
    r := Begins(s, r, 1, Update(0, 0, 0, 2, Some("c"), {}));
    EditReads(r.f, ReadActor, LockRole);
    r := Goes(s, r, 1, Editing(LockRole));
  }

  lemma EditLocks(s: State) returns (r: Trace)
    requires StartsWith(s, Alone(ONE))
    ensures Reaches(s, r)
    ensures r.f == Pair(ONE, Renaming(ONE, 0, "b", UpdateSnapshot), Editing(ReadRole), map[0 := 1], map[], 6)
  {
    r := EditBegins(s);
    EditReads(r.f, LockRole, ReadRole);
    assert r.f.Free(1);
    r := Steps(s, r, 1, Editing(ReadRole));
  }

  lemma EditPassesChecks(s: State) returns (r: Trace)
    requires StartsWith(s, Alone(ONE))
    ensures Reaches(s, r)
    ensures r.f == Pair(ONE, Renaming(ONE, 0, "b", UpdateSnapshot), Editing(CheckScope), map[0 := 1], map[], 7)
  {
    r := EditLocks(s);
    EditReads(r.f, ReadRole, CheckScope);
    r := Goes(s, r, 1, Editing(CheckScope));
  }

  lemma EditLooks(s: State) returns (r: Trace)
    requires StartsWith(s, Alone(ONE))
    ensures Reaches(s, r)
    ensures r.f == Pair(ONE, Renaming(ONE, 0, "b", UpdateRole), Editing(UpdateRole), map[0 := 1], map[], 10)
  {
    r := EditPassesChecks(s);
    EditReads(r.f, CheckScope, UpdateSnapshot);
    r := Goes(s, r, 1, Editing(UpdateSnapshot));
    EditReads(r.f, UpdateSnapshot, UpdateRole);
    r := Goes(s, r, 1, Editing(UpdateRole));
    RenameLooks(r.f, 0, 0, "b");
    r := Goes(s, r, 0, Renaming(ONE, 0, "b", UpdateRole));
  }

  function EditFailed(phase: Phase): Txn { Editing(phase).(failed := Some(Database(NoRows))) }

  lemma EditIsTooLate(f: Frame, etag: ETag)
    requires f.w == WORLD && f.sys == {} && f.t == After0(etag) && etag != 2 && f.rowLock == map[]
    requires f.txns == map[0 := Winner(etag, Done(None)), 1 := Editing(UpdateRole)]
    ensures f.LeadsTo(1, EditFailed(DeletePermissions)) && f.Free(1)
  {
  }

  lemma EditGoesOn(f: Frame, etag: ETag, from: Phase, to: Phase)
    requires f.w == WORLD && f.sys == {} && f.t == After0(etag) && 1 in f.txns && f.txns[1] == EditFailed(from)
    requires (from, to) in {(DeletePermissions, InsertPermissions), (InsertPermissions, RollingBack(Database(NoRows)))}
    ensures f.LeadsTo(1, EditFailed(to))
  {
    NothingHeld(After0(etag));
  }

  lemma EditWaitsInVain(s: State) returns (r: Trace)
    requires StartsWith(s, Alone(ONE))
    ensures Reaches(s, r)
    ensures r.f == Pair(After0(10), Winner(10, Done(None)), EditFailed(DeletePermissions), map[0 := 1], map[], 14)
  {
    r := EditLooks(s);
    r := RenameWins(s, r, Editing(UpdateRole), map[0 := 1], 10);
    EditIsTooLate(r.f, 10);
    r := Steps(s, r, 1, EditFailed(DeletePermissions));
  }

  /** A member edits the permissions of a role under its lock, with the ETag it has just read; another one
      renames the role meanwhile. The edit ends in the error that the code calls impossible. */
  lemma OvertakenEditFails(s: State) returns (r: Trace)
    requires StartsWith(s, Alone(ONE))
    ensures var s' := Run(WORLD, s, r.actions);
      && s'.txns.Keys == {0, 1} && s'.txns[0].phase == Done(None)
      && s'.txns[1].req == Update(0, 0, 0, 2, Some("c"), {}) && s'.txns[1].locked
      && s'.txns[1].phase == RollingBack(Database(NoRows))
      && s'.t.roles == map[0 := Role(0, "b", false, 10)]
  {
    r := EditWaitsInVain(s);
    EditGoesOn(r.f, 10, DeletePermissions, InsertPermissions);
    r := Goes(s, r, 1, EditFailed(InsertPermissions));
    EditGoesOn(r.f, 10, InsertPermissions, RollingBack(Database(NoRows)));
    r := Goes(s, r, 1, EditFailed(RollingBack(Database(NoRows))));
  }

  // ---- An assignment that overtakes a delete -----------------------------------------------------------

  function Deleting(phase: Phase): Txn {
    Started(WORLD, ONE, Delete(0, 0, 0)).(phase := phase, locked := !phase.ReadActor? && !phase.LockRole?)
  }

  function Assigning(phase: Phase): Txn { Started(WORLD, ONE, AssignToOrg(0, 0, 0, 0)).(phase := phase) }

  const GRANT := OrgAssignment(0, 0, 0)
  const GRANTED := ONE.(orgAssignments := {GRANT})

  /** The assignment's row has been inserted. */
  function Granting(phase: Phase): Txn {
    Assigning(phase).(shared := phase.Commit?, pending := NO_CHANGE.(orgIns := {GRANT}))
  }

  lemma DeleteReads(f: Frame, from: Phase, to: Phase)
    requires f.w == WORLD && f.sys == {} && f.t == ONE && 0 in f.txns && f.txns[0] == Deleting(from)
    requires (from, to) in {(ReadActor, LockRole), (LockRole, ReadRole), (ReadRole, DeleteProjectAssignments),
                            (DeleteProjectAssignments, DeleteOrgAssignments),
                            (DeleteOrgAssignments, DeleteRolePermissions)}
    ensures f.LeadsTo(0, Deleting(to))
  {
    NothingHeld(ONE);
    assert DeleteProjectAssignmentsStatement(ONE, 0, 0).delta == NO_CHANGE;
    assert DeleteOrgAssignmentsStatement(ONE, 0, 0).delta == NO_CHANGE;
  }

  lemma AssignmentReads(f: Frame, from: Phase, to: Phase)
    requires f.w == WORLD && f.sys == {} && f.t == ONE && 1 in f.txns && f.txns[1] == Assigning(from)
    requires (from, to) in {(ReadActor, ReadRole), (ReadRole, Insert), (Insert, CompleteInsert)}
    ensures f.LeadsTo(1, Assigning(to))
  {
    NothingHeld(ONE);
  }

  lemma AssignmentInserts(f: Frame, x0: Txn)
    requires f.w == WORLD && f.sys == {} && f.t == ONE && f.rowLock == map[]
    requires f.txns == map[0 := x0, 1 := Assigning(CompleteInsert)] && x0.pending == NO_CHANGE
    ensures f.LeadsTo(1, Granting(Commit)) && f.Free(1)
    ensures Apply(ONE, Granting(Commit).pending) == GRANTED
  {
  }

  lemma DeleteBegins(s: State) returns (r: Trace)
    requires StartsWith(s, Alone(ONE))
    ensures Reaches(s, r) && r.f == Pair(ONE, Deleting(LockRole), Assigning(ReadActor), map[], map[], 5)
  {
    r := Trace([], Alone(ONE));
    r := Begins(s, r, 0, Delete(0, 0, 0));
    r := Begins(s, r, 1, AssignToOrg(0, 0, 0, 0));
    DeleteReads(r.f, ReadActor, LockRole);
    r := Goes(s, r, 0, Deleting(LockRole));
  }

  lemma DeleteLocks(s: State) returns (r: Trace)
    requires StartsWith(s, Alone(ONE))
    ensures Reaches(s, r) && r.f == Pair(ONE, Deleting(ReadRole), Assigning(ReadActor), map[0 := 0], map[], 6)
  {
    r := DeleteBegins(s);
    DeleteReads(r.f, LockRole, ReadRole);
    assert r.f.Free(0);
    r := Steps(s, r, 0, Deleting(ReadRole));
  }

  lemma DeleteCollects(s: State) returns (r: Trace)
    requires StartsWith(s, Alone(ONE))
    ensures Reaches(s, r)
    ensures r.f == Pair(ONE, Deleting(DeleteRolePermissions), Assigning(ReadActor), map[0 := 0], map[], 9)
  {
    r := DeleteLocks(s);
    DeleteReads(r.f, ReadRole, DeleteProjectAssignments);
    r := Goes(s, r, 0, Deleting(DeleteProjectAssignments));
    DeleteReads(r.f, DeleteProjectAssignments, DeleteOrgAssignments);
    r := Goes(s, r, 0, Deleting(DeleteOrgAssignments));
    DeleteReads(r.f, DeleteOrgAssignments, DeleteRolePermissions);
    r := Goes(s, r, 0, Deleting(DeleteRolePermissions));
  }

  lemma AssignmentSlipsIn(s: State) returns (r: Trace)
    requires StartsWith(s, Alone(ONE))
    ensures Reaches(s, r)
    ensures r.f == Pair(ONE, Deleting(DeleteRolePermissions), Assigning(CompleteInsert), map[0 := 0], map[], 12)
  {
    r := DeleteCollects(s);
    AssignmentReads(r.f, ReadActor, ReadRole);
    r := Goes(s, r, 1, Assigning(ReadRole));
    AssignmentReads(r.f, ReadRole, Insert);
    r := Goes(s, r, 1, Assigning(Insert));
    AssignmentReads(r.f, Insert, CompleteInsert);
    r := Goes(s, r, 1, Assigning(CompleteInsert));
  }

  lemma AssignmentIsWritten(s: State) returns (r: Trace)
    requires StartsWith(s, Alone(ONE))
    ensures Reaches(s, r)
    ensures r.f == Pair(ONE, Deleting(DeleteRolePermissions), Granting(Commit), map[0 := 0], map[], 13)
    ensures Apply(ONE, Granting(Commit).pending) == GRANTED
  {
    r := AssignmentSlipsIn(s);
    AssignmentInserts(r.f, Deleting(DeleteRolePermissions));
    r := Steps(s, r, 1, Granting(Commit));
  }

  lemma AssignmentCommits(s: State) returns (r: Trace)
    requires StartsWith(s, Alone(ONE))
    ensures Reaches(s, r)
    ensures r.f == Pair(GRANTED, Deleting(DeleteRolePermissions), Granting(Done(None)), map[0 := 0], map[], 14)
  {
    r := AssignmentIsWritten(s);
    r := Commits(s, r, 1);
    assert Without(map[0 := 0], 1) == map[0 := 0] && Without(map[], 1) == map[];
  }

  lemma DeleteIsTooLate(f: Frame, from: Phase, to: Phase)
    requires f.w == WORLD && f.sys == {} && f.t == GRANTED && f.rowLock == map[]
    requires f.txns == map[0 := Deleting(from), 1 := Granting(Done(None))]
    requires (from, to) in {(DeleteRolePermissions, DeleteRole),
                            (DeleteRole, RollingBack(Database(ForeignKeyViolation)))}
    ensures f.LeadsTo(0, Deleting(to)) && f.Free(0)
  {
    NothingHeld(GRANTED);
    assert GRANT in GRANTED.orgAssignments;
  }

  /** A member deletes a role under its lock; another one assigns it in the organization after the delete
      has removed the assignments it saw. The delete fails on the foreign key and the role stays. */
  lemma OvertakenDeleteFails(s: State) returns (r: Trace)
    requires StartsWith(s, Alone(ONE))
    ensures var s' := Run(WORLD, s, r.actions);
      && s'.txns.Keys == {0, 1} && s'.txns[1].phase == Done(None)
      && s'.txns[0].req == Delete(0, 0, 0) && s'.txns[0].locked
      && s'.txns[0].phase == RollingBack(Database(ForeignKeyViolation))
      && s'.t == GRANTED
  {
    r := AssignmentCommits(s);
    DeleteIsTooLate(r.f, DeleteRolePermissions, DeleteRole);
    r := Goes(s, r, 0, Deleting(DeleteRole));
    DeleteIsTooLate(r.f, DeleteRole, RollingBack(Database(ForeignKeyViolation)));
    r := Steps(s, r, 0, Deleting(RollingBack(Database(ForeignKeyViolation))));
  }

  // ---- An edit that overtakes an assignment --------------------------------------------------------------

  // User 1 holds a permission through a system role; user 0 holds nothing.
  const READ := {OrgUserRead}
  const COMPANY := World(Env({0, 1}, READ, map["reader" := READ]), {0}, map[0 := 0], {(0, 0), (1, 0)})
  const READERS := {(1, "reader")}
  const RICHER := ONE.(roles := map[0 := Role(0, "a", false, 11)], rolePerms := {(0, OrgUserRead)})

  function Staff(t: Tables, x0: Txn, x1: Txn, roleLock: map<RoleId, nat>, rowLock: map<RoleId, nat>, k: nat): Frame {
    Frame(COMPANY, t, READERS, map[0 := x0, 1 := x1], roleLock, rowLock, k)
  }

  /** User 0 gives the empty role to itself. */
  function Taking(phase: Phase, t: Tables): Txn {
    Started(COMPANY, ONE, AssignToOrg(0, 0, 0, 0)).(phase := phase, snapshot := t)
  }

  function Taken(phase: Phase): Txn {
    Taking(phase, RICHER).(shared := phase.Commit?, pending := NO_CHANGE.(orgIns := {GRANT}))
  }

  /** User 1 adds the permission to the role. */
  function Adding(phase: Phase): Txn {
    Started(COMPANY, ONE, Modify(1, 0, 0, 2, READ, {})).(
      phase := phase, held := if phase.ReadActor? then {} else READ,
      locked := !phase.ReadActor? && !phase.LockRole? && !phase.Done?,
      pending := if phase.TouchRole? then NO_CHANGE.(permIns := {(0, OrgUserRead)}) else NO_CHANGE)
  }

  function Added(etag: ETag, phase: Phase): Txn {
    Adding(phase).(rowLocked := phase.Commit?,
      pending := NO_CHANGE.(permIns := {(0, OrgUserRead)}, rows := map[0 := UpdateRow(None, etag)]))
  }

  lemma HeldByStaff()
    ensures SystemPermissions(COMPANY.env, READERS, 0) == {} && SystemPermissions(COMPANY.env, READERS, 1) == READ
    ensures OrgPermissions(COMPANY, ONE, READERS, 0, 0) == {} && OrgPermissions(COMPANY, ONE, READERS, 1, 0) == READ
    ensures RolePermissions(ONE, 0) == {} && RowsOf(0, READ) == {(0, OrgUserRead)} && RowsOf(0, {}) == {}
  {
    assert READERS == {(1, "reader")} && OrgUserRead in READ;
    assert (1, "reader") in READERS && OrgUserRead in COMPANY.env.roles["reader"];
    assert OrgUserRead in SystemPermissions(COMPANY.env, READERS, 1);
    assert (0, OrgUserRead) in RowsOf(0, READ);
  }

  lemma TakingReads(f: Frame, from: Phase, to: Phase)
    requires f.w == COMPANY && f.sys == READERS && f.t == ONE && 0 in f.txns && f.txns[0] == Taking(from, ONE)
    requires (from, to) in {(ReadActor, ReadRole), (ReadRole, Insert)}
    ensures f.LeadsTo(0, Taking(to, ONE))
  {
    HeldByStaff();
  }

  lemma ReadIsChange()
    ensures Changed({}, READ) == READ && ({} + READ) - {} == READ && READ - {} == READ && {} * READ == {}
  {
  }

  lemma AddingReads(f: Frame, from: Phase, to: Phase)
    requires f.w == COMPANY && f.sys == READERS && f.t == ONE && 1 in f.txns && f.txns[1] == Adding(from)
    requires (from, to) in {(ReadActor, LockRole), (LockRole, ReadRole), (CheckScope, ModifyRows)}
    ensures f.LeadsTo(1, Adding(to))
  {
    HeldByStaff();
    ReadIsChange();
  }

  lemma AddingIsAllowed(f: Frame)
    requires f.w == COMPANY && f.sys == READERS && f.t == ONE && 1 in f.txns && f.txns[1] == Adding(ReadRole)
    ensures f.LeadsTo(1, Adding(CheckScope))
  {
    HeldByStaff();
    ReadIsChange();
  }

  lemma AddingInserts(f: Frame)
    requires f.w == COMPANY && f.sys == READERS && f.t == ONE && 1 in f.txns && f.txns[1] == Adding(ModifyRows)
    ensures f.LeadsTo(1, Adding(TouchRole))
  {
    HeldByStaff();
    ReadIsChange();
    assert OrgUserRead in ({} + READ) - {};
  }

  lemma AddingAdvances(f: Frame, from: Phase, to: Phase)
    requires f.w == COMPANY && f.sys == READERS && f.t == ONE && 1 in f.txns && f.txns[1] == Adding(from)
    requires (from, to) in {(ReadActor, LockRole), (ReadRole, CheckScope), (CheckScope, ModifyRows),
                            (ModifyRows, TouchRole)}
    ensures f.LeadsTo(1, Adding(to))
  {
    if from.ReadRole? {
      AddingIsAllowed(f);
    } else if from.ModifyRows? {
      AddingInserts(f);
    } else {
      AddingReads(f, from, to);
    }
  }

  lemma AddingWrites(f: Frame)
    requires f.w == COMPANY && f.sys == READERS && f.t == ONE && f.k == 11 && f.rowLock == map[]
    requires f.txns == map[0 := Taking(Insert, ONE), 1 := Adding(TouchRole)]
    ensures f.LeadsTo(1, Added(11, Commit)) && f.Free(1)
  {
  }

  const OFFICE := Frame(COMPANY, ONE, READERS, map[], map[], map[], 4)

  lemma StaffBegins(s: State) returns (r: Trace)
    requires StartsWith(s, OFFICE)
    ensures Reaches(s, r) && r.f == Staff(ONE, Taking(ReadActor, ONE), Adding(ReadActor), map[], map[], 4)
  {
    r := Trace([], OFFICE);
    r := Begins(s, r, 0, AssignToOrg(0, 0, 0, 0));
    r := Begins(s, r, 1, Modify(1, 0, 0, 2, READ, {}));
  }

  lemma TakingIsChecked(s: State) returns (r: Trace)
    requires StartsWith(s, OFFICE)
    ensures Reaches(s, r) && r.f == Staff(ONE, Taking(Insert, ONE), Adding(ReadActor), map[], map[], 6)
  {
    r := StaffBegins(s);
    TakingReads(r.f, ReadActor, ReadRole);
    r := Goes(s, r, 0, Taking(ReadRole, ONE));
    TakingReads(r.f, ReadRole, Insert);
    r := Goes(s, r, 0, Taking(Insert, ONE));
  }

  lemma StaffGoes(x0: Txn, x1: Txn, x1': Txn, roleLock: map<RoleId, nat>, k: nat)
    ensures var f := Staff(ONE, x0, x1, roleLock, map[], k);
      f.(txns := f.txns[1 := x1'], k := k + 1) == Staff(ONE, x0, x1', roleLock, map[], k + 1)
  {
  }

  lemma AddingGoes(s: State, before: Trace, from: Phase, to: Phase, roleLock: map<RoleId, nat>, k: nat)
    returns (r: Trace)
    requires Reaches(s, before) && before.f == Staff(ONE, Taking(Insert, ONE), Adding(from), roleLock, map[], k)
    requires (from, to) in {(ReadActor, LockRole), (ReadRole, CheckScope), (CheckScope, ModifyRows),
                            (ModifyRows, TouchRole)}
    ensures Reaches(s, r) && r.f == Staff(ONE, Taking(Insert, ONE), Adding(to), roleLock, map[], k + 1)
  {
    AddingAdvances(before.f, from, to);
    StaffGoes(Taking(Insert, ONE), Adding(from), Adding(to), roleLock, k);
    r := Goes(s, before, 1, Adding(to));
  }

  lemma AddingIsLocked()
    ensures var f := Staff(ONE, Taking(Insert, ONE), Adding(LockRole), map[], map[], 7);
      f.Free(1) && f.Stepped(1, Adding(ReadRole)) ==
                   Staff(ONE, Taking(Insert, ONE), Adding(ReadRole), map[0 := 1], map[], 8)
  {
  }

  lemma AddingLocks(s: State, before: Trace) returns (r: Trace)
    requires Reaches(s, before) && before.f == Staff(ONE, Taking(Insert, ONE), Adding(LockRole), map[], map[], 7)
    ensures Reaches(s, r) && r.f == Staff(ONE, Taking(Insert, ONE), Adding(ReadRole), map[0 := 1], map[], 8)
  {
    AddingReads(before.f, LockRole, ReadRole);
    AddingIsLocked();
    r := Steps(s, before, 1, Adding(ReadRole));
  }

  lemma EditIsAuthorised(s: State) returns (r: Trace)
    requires StartsWith(s, OFFICE)
    ensures Reaches(s, r) && r.f == Staff(ONE, Taking(Insert, ONE), Adding(TouchRole), map[0 := 1], map[], 11)
  {
    r := TakingIsChecked(s);
    r := AddingGoes(s, r, ReadActor, LockRole, map[], 6);
    r := AddingLocks(s, r);
    r := AddingGoes(s, r, ReadRole, CheckScope, map[0 := 1], 8);
    r := AddingGoes(s, r, CheckScope, ModifyRows, map[0 := 1], 9);
    r := AddingGoes(s, r, ModifyRows, TouchRole, map[0 := 1], 10);
  }

  lemma EditWrites(s: State) returns (r: Trace)
    requires StartsWith(s, OFFICE)
    ensures Reaches(s, r) && r.f == Staff(ONE, Taking(Insert, ONE), Added(11, Commit), map[0 := 1], map[0 := 1], 12)
  {
    r := EditIsAuthorised(s);
    AddingWrites(r.f);
    r := Steps(s, r, 1, Added(11, Commit));
  }

  lemma AddedCommits()
    ensures Apply(ONE, Added(11, Commit).pending) == RICHER
  {
  }

  lemma EditCommits(s: State) returns (r: Trace)
    requires StartsWith(s, OFFICE)
    ensures Reaches(s, r) && r.f == Staff(RICHER, Taking(Insert, ONE), Added(11, Done(None)), map[], map[], 13)
  {
    r := EditWrites(s);
    AddedCommits();
    r := Commits(s, r, 1);
    assert Without(map[0 := 1], 1) == map[];
  }

  lemma TakingInserts(f: Frame, from: Phase, to: Phase)
    requires f.w == COMPANY && f.sys == READERS && f.t == RICHER && f.rowLock == map[] && 1 in f.txns
    requires f.txns == map[0 := Taking(from, if from.Insert? then ONE else RICHER), 1 := Added(11, Done(None))]
    requires (from, to) in {(Insert, CompleteInsert), (CompleteInsert, Commit)}
    ensures f.LeadsTo(0, if to.Commit? then Taken(Commit) else Taking(to, RICHER)) && f.Free(0)
  {
  }

  lemma TakingIsWritten(s: State) returns (r: Trace)
    requires StartsWith(s, OFFICE)
    ensures Reaches(s, r) && r.f == Staff(RICHER, Taken(Commit), Added(11, Done(None)), map[], map[], 15)
  {
    r := EditCommits(s);
    TakingInserts(r.f, Insert, CompleteInsert);
    r := Goes(s, r, 0, Taking(CompleteInsert, RICHER));
    TakingInserts(r.f, CompleteInsert, Commit);
    r := Steps(s, r, 0, Taken(Commit));
  }

  /** Somebody who holds nothing assigns an empty role in the organization; before that takes effect somebody
      else, who may, adds a permission to the role. The assignment commits all the same. */
  lemma AssignmentGrantsMoreThanHeld(s: State) returns (r: Trace)
    requires StartsWith(s, OFFICE)
    ensures var s' := Run(COMPANY, s, r.actions);
      && s'.txns.Keys == {0, 1} && s'.txns[0].req == AssignToOrg(0, 0, 0, 0) && s'.txns[0].phase.Commit?
      && s'.txns[0].held == {} && RolePermissions(s'.t, 0) == READ
  {
    r := TakingIsWritten(s);
    assert (0, OrgUserRead) in RICHER.rolePerms;
  }
}
