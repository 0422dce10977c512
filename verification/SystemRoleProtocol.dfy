/** Any number of concurrent system-role calls under read-committed isolation, one database round
    trip per step: advisory locks, reads, the write, the commit. Reads see the latest committed
    assignments; a write becomes visible at the commit, which also releases the locks. */
module SystemRoleProtocol {
  import opened Permissions
  import opened SystemRoles

  // Advisory lock keys: (hashtext('rbac.system-role-management'), 0) and
  // (hashtext('rbac.system-role-user'), users.id).
  datatype Lock = Management | User(id: UUID) {
    function Rank(): nat { if Management? then 0 else id + 1 }
  }

  /** lockSystemRoleUsers: ascending UUID order, each user once. Locking a user that does not exist
      selects no row and takes no lock. */
  function UserLocks(env: Env, actor: UUID, target: UUID): seq<Lock> {
    var first := if actor > target then target else actor;
    var second := if actor > target then actor else target;
    (if first in env.users then [User(first)] else []) +
    (if first != second && second in env.users then [User(second)] else [])
  }

  function LockPlan(env: Env, call: Call): seq<Lock> {
    match call
    case Assign(actor, target, _) => UserLocks(env, actor, target)
    case Unassign(actor, target, _) => [Management] + UserLocks(env, actor, target)
    case Bootstrap(target, _) => if target in env.users then [User(target)] else []
  }

  // The next round trip of a transaction.
  datatype Phase =
    | Locking(held: nat)       // pg_advisory_xact_lock on LockPlan[held]
    | ReadRole                 // SystemRoleByName
    | ReadActor                // SystemPermissions of the actor, then the superset test
    | CheckRemaining           // FullyPrivilegedUserRemainsAfterSystemRoleUnassign
    | Write                    // the INSERT or DELETE
    | Commit
    | RollingBack(error: Error)
    | Done(result: Result)
    | Cancelled                // rolled back for a reason of its own: a lost connection, a cancelled context

  datatype Txn = Txn(call: Call, phase: Phase)

  // One entry per call, written when its outcome is settled: at its commit, or at the read that fails.
  datatype Event = Event(tid: nat, result: Result)

  datatype State = State(committed: Assignments, txns: seq<Txn>, owner: map<Lock, nat>, history: seq<Event>)

  function AfterLocks(call: Call): Phase { if call.Bootstrap? then Write else ReadRole }

  function Begin(env: Env, call: Call): Txn {
    Txn(call, if LockPlan(env, call) == [] then AfterLocks(call) else Locking(0))
  }

  function Initial(env: Env, a: Assignments, calls: seq<Call>): State {
    State(a, seq(|calls|, i requires 0 <= i < |calls| => Begin(env, calls[i])), map[], [])
  }

  predicate Finished(t: Txn) { t.phase.Done? || t.phase.Cancelled? }

  predicate Enabled(env: Env, s: State, i: nat) {
    && i < |s.txns|
    && !Finished(s.txns[i])
    && (s.txns[i].phase.Locking? ==>
          var plan := LockPlan(env, s.txns[i].call);
          s.txns[i].phase.held < |plan| && plan[s.txns[i].phase.held] !in s.owner)
  }

  function Goto(s: State, i: nat, phase: Phase): State
    requires i < |s.txns|
  {
    s.(txns := s.txns[i := s.txns[i].(phase := phase)])
  }

  function Fail(s: State, i: nat, e: Error): State
    requires i < |s.txns|
  {
    Goto(s, i, RollingBack(e)).(history := s.history + [Event(i, Err(e))])
  }

  function Release(s: State, i: nat): State {
    s.(owner := map l | l in s.owner && s.owner[l] != i :: s.owner[l])
  }

  function AcquireNext(env: Env, s: State, i: nat): State
    requires Enabled(env, s, i) && s.txns[i].phase.Locking?
  {
    var plan, held := LockPlan(env, s.txns[i].call), s.txns[i].phase.held;
    var next := if held + 1 == |plan| then AfterLocks(s.txns[i].call) else Locking(held + 1);
    Goto(s, i, next).(owner := s.owner[plan[held] := i])
  }

  function Read(env: Env, s: State, i: nat): State
    requires i < |s.txns|
  {
    var call := s.txns[i].call;
    match s.txns[i].phase
    case ReadRole => if call.role in env.roles then Goto(s, i, ReadActor) else Fail(s, i, NotFound)
    case ReadActor =>
      if call.Bootstrap? then s
      else if call.actor !in env.users then Fail(s, i, NotFound)
      else if call.role !in env.roles || !(env.roles[call.role] <= SystemPermissions(env, s.committed, call.actor)) then
        Fail(s, i, PermissionDenied)
      else Goto(s, i, if call.Unassign? then CheckRemaining else Write)
    case CheckRemaining =>
      (match FullyPrivilegedUserRemainsAfterUnassign(env, s.committed, call.target, call.role)
       case None => Fail(s, i, NotFound)
       case Some(remains) => if remains then Goto(s, i, Write) else Fail(s, i, LastFullyPrivilegedSystemAdmin))
    case Write =>
      if call.Unassign? then
        if (call.target, call.role) in s.committed then Goto(s, i, Commit) else Fail(s, i, NotFound)
      else
        var insert := InsertAssignment(env, s.committed, call.target, call.role).1;
        if insert.Ok? then Goto(s, i, Commit) else Fail(s, i, insert.error)
    case _ => s
  }

  function CommitWrite(s: State, i: nat): State
    requires i < |s.txns|
  {
    var call := s.txns[i].call;
    var row := (call.target, call.role);
    var after := if call.Unassign? then s.committed - {row} else s.committed + {row};
    Release(Goto(s, i, Done(Ok)), i).(committed := after, history := s.history + [Event(i, Ok)])
  }

  /** Only transaction `i` moves, and it stays the same call. */
  ghost predicate OnlyMoves(s: State, s': State, i: nat) {
    && i < |s.txns| == |s'.txns|
    && s'.txns == s.txns[i := s'.txns[i]]
    && s'.txns[i].call == s.txns[i].call
  }

  function Step(env: Env, s: State, i: nat): (s': State)
    requires Enabled(env, s, i)
    ensures OnlyMoves(s, s', i)
  {
    match s.txns[i].phase
    case Locking(_) => AcquireNext(env, s, i)
    case Commit => CommitWrite(s, i)
    case RollingBack(e) => Release(Goto(s, i, Done(Err(e))), i)
    case _ => Read(env, s, i)
  }

  /** A call that has not been settled may fail at any point, waiting or not. */
  predicate CanCancel(s: State, i: nat) {
    i < |s.txns| && !Finished(s.txns[i]) && !s.txns[i].phase.RollingBack?
  }

  function Cancel(s: State, i: nat): (s': State)
    requires CanCancel(s, i)
    ensures OnlyMoves(s, s', i)
  {
    Release(Goto(s, i, Cancelled), i)
  }

  datatype Turn = Go(tid: nat) | Drop(tid: nat)

  function Take(env: Env, s: State, turn: Turn): State {
    match turn
    case Go(i) => if Enabled(env, s, i) then Step(env, s, i) else s
    case Drop(i) => if CanCancel(s, i) then Cancel(s, i) else s
  }

  /** A schedule names the transaction that moves or fails next; one that cannot is skipped. */
  function Run(env: Env, s: State, schedule: seq<Turn>): State
    decreases |schedule|
  {
    if schedule == [] then s else Run(env, Take(env, s, schedule[0]), schedule[1..])
  }

  // ---- Invariant ----------------------------------------------------------------------------

  function HeldCount(env: Env, t: Txn): nat {
    match t.phase
    case Locking(held) => held
    case Done(_) => 0
    case Cancelled => 0
    case _ => |LockPlan(env, t.call)|
  }

  ghost predicate Holds(env: Env, t: Txn, l: Lock) {
    exists k :: 0 <= k < HeldCount(env, t) && k < |LockPlan(env, t.call)| && LockPlan(env, t.call)[k] == l
  }

  /** The lock table is exactly what the transactions' positions say, so each lock has one holder. */
  ghost predicate LocksAgree(env: Env, s: State) {
    && (forall i, l :: 0 <= i < |s.txns| && Holds(env, s.txns[i], l) ==> l in s.owner && s.owner[l] == i)
    && (forall l :: l in s.owner ==> s.owner[l] < |s.txns| && Holds(env, s.txns[s.owner[l]], l))
  }

  ghost predicate PhaseFits(env: Env, t: Txn) {
    match t.phase
    case Locking(held) => held < |LockPlan(env, t.call)|
    case ReadRole => !t.call.Bootstrap?
    case ReadActor => !t.call.Bootstrap?
    case CheckRemaining => t.call.Unassign?
    case _ => true
  }

  /** What the earlier reads of a transaction established, and the locks it holds keep true. */
  ghost predicate ReadsStillHold(env: Env, a: Assignments, t: Txn) {
    var row := (t.call.target, t.call.role);
    && (t.phase.ReadActor? ==> t.call.role in env.roles)
    && (t.phase.CheckRemaining? || t.phase.Write? || t.phase.Commit? ==>
          t.call.Bootstrap? || Authorize(env, a, t.call.actor, t.call.role) == Ok)
    && ((t.phase.Write? || t.phase.Commit?) && t.call.Unassign? ==>
          row in a && env.registry != {} && HasFullyPrivilegedUser(env, a - {row}))
    && (t.phase.Commit? && !t.call.Unassign? ==> InsertAssignment(env, a, t.call.target, t.call.role).1 == Ok)
  }

  ghost predicate Inv(env: Env, s: State) {
    && env.Valid() && ValidAssignments(env, s.committed)
    && LocksAgree(env, s)
    && (forall i :: 0 <= i < |s.txns| ==> PhaseFits(env, s.txns[i]) && ReadsStillHold(env, s.committed, s.txns[i]))
  }

  /** The plan names the locks of the actor and the target in strictly ascending rank, management first. */
  lemma PlanAscends(env: Env, call: Call)
    ensures forall j, k :: 0 <= j < k < |LockPlan(env, call)| ==>
              LockPlan(env, call)[j].Rank() < LockPlan(env, call)[k].Rank()
    ensures call.target in env.users ==> User(call.target) in LockPlan(env, call)
    ensures !call.Bootstrap? && call.actor in env.users ==> User(call.actor) in LockPlan(env, call)
    ensures Management in LockPlan(env, call) <==> call.Unassign?
  {
    if !call.Bootstrap? {
      var actor, target := call.actor, call.target;
      var first := if actor > target then target else actor;
      var second := if actor > target then actor else target;
      var locks := UserLocks(env, actor, target);
      assert first in env.users ==> locks[0] == User(first);
      assert first != second && second in env.users ==> locks[|locks| - 1] == User(second);
      assert call.Unassign? ==> LockPlan(env, call)[1..] == locks && LockPlan(env, call)[0] == Management;
    }
  }

  lemma HoldsTarget(env: Env, t: Txn)
    requires HeldCount(env, t) == |LockPlan(env, t.call)|
    requires t.call.target in env.users
    ensures Holds(env, t, User(t.call.target))
  {
    PlanAscends(env, t.call);
  }

  lemma HoldsActor(env: Env, t: Txn)
    requires HeldCount(env, t) == |LockPlan(env, t.call)|
    requires !t.call.Bootstrap? && t.call.actor in env.users
    ensures Holds(env, t, User(t.call.actor))
  {
    PlanAscends(env, t.call);
  }

  lemma HoldsManagement(env: Env, t: Txn)
    requires HeldCount(env, t) == |LockPlan(env, t.call)| && t.call.Unassign?
    ensures Holds(env, t, Management)
  {
    assert LockPlan(env, t.call)[0] == Management;
  }

  /** The reads of transaction `t` survive the commit of another transaction `c`. */
  lemma CommitKeepsReads(env: Env, a: Assignments, c: Txn, t: Txn)
    requires ValidAssignments(env, a)
    requires c.phase.Commit? && ReadsStillHold(env, a, c)
    requires PhaseFits(env, t) && ReadsStillHold(env, a, t)
    requires forall l :: !(Holds(env, c, l) && Holds(env, t, l))
    ensures ReadsStillHold(env, if c.call.Unassign? then a - {(c.call.target, c.call.role)}
                                else a + {(c.call.target, c.call.role)}, t)
  {
    var written := (c.call.target, c.call.role);
    var after := if c.call.Unassign? then a - {written} else a + {written};
    if t.phase.CheckRemaining? || t.phase.Write? || t.phase.Commit? {
      HoldsTarget(env, c);
      if !t.call.Bootstrap? {
        HoldsActor(env, t);
        assert t.call.actor != c.call.target;
        PermissionsDependOnOwnRows(env, a, after, t.call.actor);
      }
      if (t.phase.Write? || t.phase.Commit?) && t.call.Unassign? {
        HoldsManagement(env, t);
        if c.call.Unassign? { HoldsManagement(env, c); }
        var row := (t.call.target, t.call.role);
        assert row in after && a - {row} <= after - {row};
        MoreRowsKeepFullyPrivileged(env, a - {row}, after - {row});
      }
      if t.phase.Commit? {
        if t.call.target in env.users { HoldsTarget(env, t); }
      }
    }
  }

  lemma AcquireKeepsLocks(env: Env, s: State, s': State, i: nat, l: Lock)
    requires LocksAgree(env, s) && OnlyMoves(s, s', i)
    requires l !in s.owner && s'.owner == s.owner[l := i]
    requires forall m :: Holds(env, s'.txns[i], m) <==> m == l || Holds(env, s.txns[i], m)
    ensures LocksAgree(env, s')
  {
  }

  lemma ReleaseKeepsLocks(env: Env, s: State, s': State, i: nat)
    requires LocksAgree(env, s) && OnlyMoves(s, s', i)
    requires s'.owner == Release(s, i).owner
    requires forall m :: !Holds(env, s'.txns[i], m)
    ensures LocksAgree(env, s')
  {
    forall j, l | 0 <= j < |s'.txns| && Holds(env, s'.txns[j], l) ensures l in s'.owner && s'.owner[l] == j {
      assert j != i;
      assert Holds(env, s.txns[j], l);
    }
    forall l | l in s'.owner ensures s'.owner[l] < |s'.txns| && Holds(env, s'.txns[s'.owner[l]], l) {
      assert l in s.owner && s.owner[l] != i;
    }
  }

  lemma ReadKeepsLocks(env: Env, s: State, s': State, i: nat)
    requires LocksAgree(env, s) && OnlyMoves(s, s', i) && s'.owner == s.owner
    requires forall m :: Holds(env, s'.txns[i], m) == Holds(env, s.txns[i], m)
    ensures LocksAgree(env, s')
  {
    forall j, l | 0 <= j < |s'.txns| && Holds(env, s'.txns[j], l) ensures l in s'.owner && s'.owner[l] == j {
      assert Holds(env, s.txns[j], l);
    }
    forall l | l in s'.owner ensures s'.owner[l] < |s'.txns| && Holds(env, s'.txns[s'.owner[l]], l) {
      assert Holds(env, s.txns[s.owner[l]], l);
    }
  }

  lemma AcquireAddsOne(env: Env, t: Txn, t': Txn)
    requires t.phase.Locking? && t.phase.held < |LockPlan(env, t.call)|
    requires t'.call == t.call && HeldCount(env, t') == t.phase.held + 1
    ensures forall m :: Holds(env, t', m) <==> m == LockPlan(env, t.call)[t.phase.held] || Holds(env, t, m)
  {
    var plan := LockPlan(env, t.call);
    forall m ensures Holds(env, t', m) <==> m == plan[t.phase.held] || Holds(env, t, m) {
      if Holds(env, t, m) {
        var k :| 0 <= k < t.phase.held && plan[k] == m;
        assert plan[k] == m && k < HeldCount(env, t');
      }
      if m == plan[t.phase.held] { assert t.phase.held < HeldCount(env, t'); }
    }
  }

  lemma ReadKeepsPosition(env: Env, s: State, i: nat)
    requires Enabled(env, s, i) && PhaseFits(env, s.txns[i])
    requires !s.txns[i].phase.Locking? && !s.txns[i].phase.Commit? && !s.txns[i].phase.RollingBack?
    ensures var s' := Step(env, s, i);
      && s'.owner == s.owner && s'.committed == s.committed
      && HeldCount(env, s'.txns[i]) == HeldCount(env, s.txns[i])
      && PhaseFits(env, s'.txns[i])
  {
  }

  lemma StepKeepsLocks(env: Env, s: State, i: nat)
    requires Inv(env, s) && Enabled(env, s, i)
    ensures LocksAgree(env, Step(env, s, i)) && PhaseFits(env, Step(env, s, i).txns[i])
  {
    var s' := Step(env, s, i);
    var t := s.txns[i];
    if t.phase.Locking? {
      AcquireAddsOne(env, t, s'.txns[i]);
      AcquireKeepsLocks(env, s, s', i, LockPlan(env, t.call)[t.phase.held]);
    } else if t.phase.Commit? || t.phase.RollingBack? {
      ReleaseKeepsLocks(env, s, s', i);
    } else {
      ReadKeepsPosition(env, s, i);
      ReadKeepsLocks(env, s, s', i);
    }
  }

  lemma OwnStepEstablishesReads(env: Env, s: State, i: nat)
    requires Inv(env, s) && Enabled(env, s, i) && !s.txns[i].phase.Commit?
    ensures ReadsStillHold(env, s.committed, Step(env, s, i).txns[i])
  {
    var t := s.txns[i];
    if t.phase.CheckRemaining? {
      CardinalityTestIsSupersetTest(env, s.committed, (t.call.target, t.call.role));
    }
  }

  lemma StepKeepsReads(env: Env, s: State, i: nat, j: nat)
    requires Inv(env, s) && Enabled(env, s, i) && j < |s.txns|
    ensures ReadsStillHold(env, Step(env, s, i).committed, Step(env, s, i).txns[j])
  {
    if j == i {
      if !s.txns[i].phase.Commit? { OwnStepEstablishesReads(env, s, i); }
    } else if s.txns[i].phase.Commit? {
      forall l ensures !(Holds(env, s.txns[i], l) && Holds(env, s.txns[j], l)) {
        if Holds(env, s.txns[i], l) { assert s.owner[l] == i; }
      }
      CommitKeepsReads(env, s.committed, s.txns[i], s.txns[j]);
    } else {
      ReadsCommitNothing(env, s, i);
    }
  }

  lemma ReadsCommitNothing(env: Env, s: State, i: nat)
    requires Enabled(env, s, i) && !s.txns[i].phase.Commit?
    ensures Step(env, s, i).committed == s.committed
  {
  }

  lemma CommittedStaysValid(env: Env, s: State, i: nat)
    requires Inv(env, s) && Enabled(env, s, i)
    ensures ValidAssignments(env, Step(env, s, i).committed)
  {
    if !s.txns[i].phase.Commit? { ReadsCommitNothing(env, s, i); }
  }

  lemma StepKeepsInv(env: Env, s: State, i: nat)
    requires Inv(env, s) && Enabled(env, s, i)
    ensures Inv(env, Step(env, s, i))
  {
    var s' := Step(env, s, i);
    StepKeepsLocks(env, s, i);
    CommittedStaysValid(env, s, i);
    forall j | 0 <= j < |s'.txns| ensures PhaseFits(env, s'.txns[j]) && ReadsStillHold(env, s'.committed, s'.txns[j]) {
      StepKeepsReads(env, s, i, j);
      assert j != i ==> s'.txns[j] == s.txns[j];
    }
  }

  lemma CancelKeepsInv(env: Env, s: State, i: nat)
    requires Inv(env, s) && CanCancel(s, i)
    ensures Inv(env, Cancel(s, i))
  {
    var s' := Cancel(s, i);
    ReleaseKeepsLocks(env, s, s', i);
    forall j | 0 <= j < |s'.txns| ensures PhaseFits(env, s'.txns[j]) && ReadsStillHold(env, s'.committed, s'.txns[j]) {
      assert j != i ==> s'.txns[j] == s.txns[j];
    }
  }

  lemma InitialInv(env: Env, a: Assignments, calls: seq<Call>)
    requires env.Valid() && ValidAssignments(env, a)
    ensures Inv(env, Initial(env, a, calls))
  {
    var s := Initial(env, a, calls);
    forall i, l | 0 <= i < |s.txns| ensures !Holds(env, s.txns[i], l) {}
  }

  // ---- Refinement of the atomic specification -----------------------------------------------

  /** The assignments after executing the settled calls one after the other, alone, in history order. */
  ghost function Replay(env: Env, a: Assignments, calls: seq<Call>, history: seq<Event>): Assignments
    requires forall k :: 0 <= k < |history| ==> history[k].tid < |calls|
  {
    if history == [] then a
    else
      var last := |history| - 1;
      Atomic(env, Replay(env, a, calls, history[..last]), calls[history[last].tid]).0
  }

  function Outcome(t: Txn): Option<Result> {
    match t.phase
    case RollingBack(e) => Some(Err(e))
    case Done(r) => Some(r)
    case _ => None
  }

  /** `committed` and every result in the history are those of running the calls atomically, in order. */
  ghost predicate ReplaysTo(env: Env, a: Assignments, calls: seq<Call>, history: seq<Event>, committed: Assignments) {
    && (forall k :: 0 <= k < |history| ==> history[k].tid < |calls|)
    && committed == Replay(env, a, calls, history)
    && (forall k :: 0 <= k < |history| ==>
          history[k].result == Atomic(env, Replay(env, a, calls, history[..k]), calls[history[k].tid]).1)
  }

  /** Each settled call is in the history exactly once, with its outcome, and no other call is. */
  ghost predicate EachSettledOnce(txns: seq<Txn>, history: seq<Event>) {
    && (forall k :: 0 <= k < |history| ==>
          history[k].tid < |txns| && Outcome(txns[history[k].tid]) == Some(history[k].result))
    && (forall i :: 0 <= i < |txns| && Outcome(txns[i]).Some? ==> exists k :: 0 <= k < |history| && history[k].tid == i)
    && (forall j, k :: 0 <= j < k < |history| ==> history[j].tid != history[k].tid)
  }

  /** The run so far is an atomic execution: its committed state and all outcomes. */
  ghost predicate Linearized(env: Env, a: Assignments, calls: seq<Call>, s: State) {
    && |s.txns| == |calls|
    && (forall i :: 0 <= i < |calls| ==> s.txns[i].call == calls[i])
    && ReplaysTo(env, a, calls, s.history, s.committed)
    && EachSettledOnce(s.txns, s.history)
  }

  /** At the moment a call is settled, its result and effect are those of the atomic call then. */
  lemma SettlesLikeAtomic(env: Env, s: State, i: nat)
    requires Inv(env, s) && Enabled(env, s, i)
    requires Outcome(s.txns[i]).None? && Outcome(Step(env, s, i).txns[i]).Some?
    ensures var s' := Step(env, s, i);
      && Atomic(env, s.committed, s.txns[i].call) == (s'.committed, Outcome(s'.txns[i]).value)
      && s'.history == s.history + [Event(i, Outcome(s'.txns[i]).value)]
  {
    var t := s.txns[i];
    CardinalityTestIsSupersetTest(env, s.committed, (t.call.target, t.call.role));
  }

  lemma OtherwiseStutters(env: Env, s: State, i: nat)
    requires Enabled(env, s, i)
    requires Outcome(s.txns[i]).Some? || Outcome(Step(env, s, i).txns[i]).None?
    ensures var s' := Step(env, s, i);
      && s'.committed == s.committed && s'.history == s.history
      && Outcome(s'.txns[i]) == Outcome(s.txns[i])
  {
  }

  lemma ReplayOneMore(env: Env, a: Assignments, calls: seq<Call>, h: seq<Event>, committed: Assignments, e: Event)
    requires ReplaysTo(env, a, calls, h, committed) && e.tid < |calls|
    requires e.result == Atomic(env, committed, calls[e.tid]).1
    ensures ReplaysTo(env, a, calls, h + [e], Atomic(env, committed, calls[e.tid]).0)
  {
    var h' := h + [e];
    assert h'[..|h|] == h;
    forall k | 0 <= k < |h| ensures h'[..k] == h[..k] && h'[k] == h[k] {}
  }

  lemma SettleOneMore(txns: seq<Txn>, txns': seq<Txn>, h: seq<Event>, i: nat, r: Result)
    requires EachSettledOnce(txns, h)
    requires i < |txns| == |txns'| && txns' == txns[i := txns'[i]]
    requires Outcome(txns[i]).None? && Outcome(txns'[i]) == Some(r)
    ensures EachSettledOnce(txns', h + [Event(i, r)])
  {
    var h' := h + [Event(i, r)];
    forall k | 0 <= k < |h| ensures h'[k] == h[k] && h[k].tid != i {}
    forall j | 0 <= j < |txns'| && Outcome(txns'[j]).Some?
      ensures exists k :: 0 <= k < |h'| && h'[k].tid == j
    {
      if j == i {
        assert h'[|h|].tid == j;
      } else {
        var k :| 0 <= k < |h| && h[k].tid == j;
        assert h'[k].tid == j;
      }
    }
  }

  lemma StepLinearizes(env: Env, a: Assignments, calls: seq<Call>, s: State, i: nat)
    requires Inv(env, s) && Enabled(env, s, i) && Linearized(env, a, calls, s)
    ensures Linearized(env, a, calls, Step(env, s, i))
  {
    var s' := Step(env, s, i);
    if Outcome(s.txns[i]).None? && Outcome(s'.txns[i]).Some? {
      SettlesLikeAtomic(env, s, i);
      var r := Outcome(s'.txns[i]).value;
      ReplayOneMore(env, a, calls, s.history, s.committed, Event(i, r));
      SettleOneMore(s.txns, s'.txns, s.history, i, r);
    } else {
      OtherwiseStutters(env, s, i);
    }
  }

  /** A cancelled call leaves no trace. */
  lemma CancelLinearizes(env: Env, a: Assignments, calls: seq<Call>, s: State, i: nat)
    requires CanCancel(s, i) && Linearized(env, a, calls, s)
    ensures Linearized(env, a, calls, Cancel(s, i))
  {
    var s' := Cancel(s, i);
    forall j | 0 <= j < |s'.txns|
      ensures s'.txns[j].call == s.txns[j].call && Outcome(s'.txns[j]) == Outcome(s.txns[j])
    {
      assert j != i ==> s'.txns[j] == s.txns[j];
    }
  }

  lemma TakeKeepsInv(env: Env, a: Assignments, calls: seq<Call>, s: State, turn: Turn)
    requires Inv(env, s) && Linearized(env, a, calls, s)
    ensures Inv(env, Take(env, s, turn)) && Linearized(env, a, calls, Take(env, s, turn))
  {
    match turn
    case Go(i) =>
      if Enabled(env, s, i) {
        StepKeepsInv(env, s, i);
        StepLinearizes(env, a, calls, s, i);
      }
    case Drop(i) =>
      if CanCancel(s, i) {
        CancelKeepsInv(env, s, i);
        CancelLinearizes(env, a, calls, s, i);
      }
  }

  lemma {:induction false} RunKeepsInv(env: Env, a: Assignments, calls: seq<Call>, s: State, schedule: seq<Turn>)
    requires Inv(env, s) && Linearized(env, a, calls, s)
    ensures Inv(env, Run(env, s, schedule)) && Linearized(env, a, calls, Run(env, s, schedule))
    decreases |schedule|
  {
    if schedule != [] {
      TakeKeepsInv(env, a, calls, s, schedule[0]);
      RunKeepsInv(env, a, calls, Take(env, s, schedule[0]), schedule[1..]);
    }
  }

  /** Every interleaving of any calls refines the atomic specification. */
  lemma InterleavingsRefineAtomic(env: Env, a: Assignments, calls: seq<Call>, schedule: seq<Turn>)
    requires env.Valid() && ValidAssignments(env, a)
    ensures Linearized(env, a, calls, Run(env, Initial(env, a, calls), schedule))
  {
    InitialInv(env, a, calls);
    RunKeepsInv(env, a, calls, Initial(env, a, calls), schedule);
  }

  // ---- Rows ---------------------------------------------------------------------------------

  /** In every reachable state the commit of a call writes its row and no other: an unassignment takes out a
      row that was there, an assignment puts in one that was missing, and the call ends in success. */
  lemma CommitsWriteTheirRow(env: Env, a: Assignments, calls: seq<Call>, schedule: seq<Turn>, i: nat)
    requires env.Valid() && ValidAssignments(env, a)
    requires var s := Run(env, Initial(env, a, calls), schedule);
      i < |s.txns| && s.txns[i].phase.Commit?
    ensures var s := Run(env, Initial(env, a, calls), schedule);
      Enabled(env, s, i)
    ensures var s := Run(env, Initial(env, a, calls), schedule);
      var call, s' := s.txns[i].call, Step(env, s, i);
      var row := (call.target, call.role);
      && s'.txns[i].phase == Done(Ok)
      && (if call.Unassign? then row in s.committed && s'.committed == s.committed - {row}
          else row !in s.committed && s'.committed == s.committed + {row})
  {
    InitialInv(env, a, calls);
    InterleavingsRefineAtomic(env, a, calls, schedule);
    RunKeepsInv(env, a, calls, Initial(env, a, calls), schedule);
  }

  /** What the successful calls of a history have written, one row each. */
  function Written(a: Assignments, calls: seq<Call>, history: seq<Event>): Assignments
    requires forall k :: 0 <= k < |history| ==> history[k].tid < |calls|
  {
    if history == [] then a
    else
      var last := history[|history| - 1];
      var before, row := Written(a, calls, history[..|history| - 1]), (calls[last.tid].target, calls[last.tid].role);
      if last.result.Err? then before else if calls[last.tid].Unassign? then before - {row} else before + {row}
  }

  /** One call writes its row if it succeeds, and nothing if it fails. */
  lemma AtomicWritesOneRow(env: Env, a: Assignments, call: Call)
    ensures var (after, r) := Atomic(env, a, call);
      var row := (call.target, call.role);
      after == if r.Err? then a else if call.Unassign? then a - {row} else a + {row}
  {
  }

  ghost predicate Answers(env: Env, a: Assignments, calls: seq<Call>, h: seq<Event>, k: nat) {
    && k < |h| && (forall j :: 0 <= j < |h| ==> h[j].tid < |calls|)
    && h[k].result == Atomic(env, Replay(env, a, calls, h[..k]), calls[h[k].tid]).1
  }

  lemma {:induction false} ReplayIsWritten(env: Env, a: Assignments, calls: seq<Call>, h: seq<Event>)
    requires forall k :: 0 <= k < |h| ==> h[k].tid < |calls|
    requires forall k: nat :: k < |h| ==> Answers(env, a, calls, h, k)
    ensures Replay(env, a, calls, h) == Written(a, calls, h)
    decreases |h|
  {
    if h != [] {
      var last := |h| - 1;
      var before := h[..last];
      forall k: nat | k < |before| ensures Answers(env, a, calls, before, k) {
        assert Answers(env, a, calls, h, k) && before[..k] == h[..k];
      }
      ReplayIsWritten(env, a, calls, before);
      assert Answers(env, a, calls, h, last);
      AtomicWritesOneRow(env, Replay(env, a, calls, before), calls[h[last].tid]);
    }
  }

  /** The event is a success that writes this row. */
  predicate Writes(calls: seq<Call>, e: Event, row: (UUID, string)) {
    e.result.Ok? && e.tid < |calls| && (calls[e.tid].target, calls[e.tid].role) == row
  }

  lemma {:induction false} LastWriteDecides(a: Assignments, calls: seq<Call>, history: seq<Event>, row: (UUID, string),
                                            k: nat)
    requires forall j :: 0 <= j < |history| ==> history[j].tid < |calls|
    requires k <= |history| && forall j :: k <= j < |history| ==> !Writes(calls, history[j], row)
    ensures row in Written(a, calls, history) <==> row in Written(a, calls, history[..k])
    decreases |history|
  {
    if k < |history| {
      assert history[..|history| - 1][..k] == history[..k];
      LastWriteDecides(a, calls, history[..|history| - 1], row, k);
    } else {
      assert history[..k] == history;
    }
  }

  lemma LastWordDecides(a: Assignments, calls: seq<Call>, h: seq<Event>, row: (UUID, string), k: int)
    requires forall j :: 0 <= j < |h| ==> h[j].tid < |calls|
    requires -1 <= k < |h| && (k >= 0 ==> Writes(calls, h[k], row))
    requires forall j :: k < j < |h| ==> !Writes(calls, h[j], row)
    ensures row in Written(a, calls, h) <==> if k < 0 then row in a else !calls[h[k].tid].Unassign?
  {
    LastWriteDecides(a, calls, h, row, k + 1);
    if k >= 0 { assert h[..k + 1][..k] == h[..k]; }
  }

  /** In every reachable state the last word on a row decides whether it is there: if event `k` is the last
      success for it, the row is there exactly when that was not an unassignment; if there is none, exactly
      when it was there at the start. */
  lemma RowsFollowTheHistory(env: Env, a: Assignments, calls: seq<Call>, schedule: seq<Turn>, row: (UUID, string),
                             k: int)
    requires env.Valid() && ValidAssignments(env, a)
    requires var h := Run(env, Initial(env, a, calls), schedule).history;
      && -1 <= k < |h| && (k >= 0 ==> Writes(calls, h[k], row))
      && forall j :: k < j < |h| ==> !Writes(calls, h[j], row)
    ensures var s := Run(env, Initial(env, a, calls), schedule);
      row in s.committed <==> if k < 0 then row in a else !calls[s.history[k].tid].Unassign?
  {
    InterleavingsRefineAtomic(env, a, calls, schedule);
    var s := Run(env, Initial(env, a, calls), schedule);
    forall k: nat | k < |s.history| ensures Answers(env, a, calls, s.history, k) {}
    ReplayIsWritten(env, a, calls, s.history);
    LastWordDecides(a, calls, s.history, row, k);
  }

  lemma {:induction false} ReplayKeepsFullyPrivilegedUser(env: Env, a: Assignments, calls: seq<Call>,
                                                          history: seq<Event>)
    requires ValidAssignments(env, a)
    requires forall k :: 0 <= k < |history| ==> history[k].tid < |calls|
    ensures ValidAssignments(env, Replay(env, a, calls, history))
    ensures HasFullyPrivilegedUser(env, a) ==> HasFullyPrivilegedUser(env, Replay(env, a, calls, history))
  {
    if history != [] {
      var last := |history| - 1;
      ReplayKeepsFullyPrivilegedUser(env, a, calls, history[..last]);
      AtomicKeepsFullyPrivilegedUser(env, Replay(env, a, calls, history[..last]), calls[history[last].tid]);
    }
  }

  /** Once somebody holds every registered permission through system roles, somebody does in every
      committed state of every interleaving. */
  lemma FullyPrivilegedUserAlwaysRemains(env: Env, a: Assignments, calls: seq<Call>, schedule: seq<Turn>)
    requires env.Valid() && ValidAssignments(env, a) && HasFullyPrivilegedUser(env, a)
    ensures HasFullyPrivilegedUser(env, Run(env, Initial(env, a, calls), schedule).committed)
  {
    var s := Run(env, Initial(env, a, calls), schedule);
    InterleavingsRefineAtomic(env, a, calls, schedule);
    ReplayKeepsFullyPrivilegedUser(env, a, calls, s.history);
  }

  lemma {:induction false} ReplayGrantsNothingNew(env: Env, a: Assignments, calls: seq<Call>, history: seq<Event>,
                                                  u: UUID, p: Permission)
    requires forall k :: 0 <= k < |history| ==> history[k].tid < |calls| && !calls[history[k].tid].Bootstrap?
    requires p in SystemPermissions(env, Replay(env, a, calls, history), u)
    ensures exists v :: p in SystemPermissions(env, a, v)
    decreases |history|
  {
    if history != [] {
      var last := |history| - 1;
      var before := Replay(env, a, calls, history[..last]);
      AtomicGrantsNothingNew(env, before, calls[history[last].tid], u, p);
      var v :| p in SystemPermissions(env, before, v);
      ReplayGrantsNothingNew(env, a, calls, history[..last], v, p);
    }
  }

  /** Without bootstrap calls, no interleaving gives anybody a system permission that nobody held. */
  lemma SystemAuthorityNeverGrows(env: Env, a: Assignments, calls: seq<Call>, schedule: seq<Turn>, u: UUID,
                                  p: Permission)
    requires env.Valid() && ValidAssignments(env, a)
    requires forall c :: c in calls ==> !c.Bootstrap?
    requires p in SystemPermissions(env, Run(env, Initial(env, a, calls), schedule).committed, u)
    ensures exists v :: p in SystemPermissions(env, a, v)
  {
    InterleavingsRefineAtomic(env, a, calls, schedule);
    ReplayGrantsNothingNew(env, a, calls, Run(env, Initial(env, a, calls), schedule).history, u, p);
  }

  // ---- Progress -----------------------------------------------------------------------------

  function Wanted(env: Env, t: Txn): Lock
    requires t.phase.Locking? && t.phase.held < |LockPlan(env, t.call)|
  {
    LockPlan(env, t.call)[t.phase.held]
  }

  /** The holder of the lock that transaction `i` waits for is unfinished, and waits, if at all, for a lock
      of higher rank: a transaction holds only locks ranked below the one it wants. */
  lemma HolderWantsMore(env: Env, s: State, i: nat) returns (holder: nat)
    requires Inv(env, s) && i < |s.txns| && !Finished(s.txns[i]) && !Enabled(env, s, i)
    ensures s.txns[i].phase.Locking? && s.txns[i].phase.held < |LockPlan(env, s.txns[i].call)|
    ensures holder < |s.txns| && !Finished(s.txns[holder])
    ensures s.txns[holder].phase.Locking? ==>
      && s.txns[holder].phase.held < |LockPlan(env, s.txns[holder].call)|
      && Wanted(env, s.txns[i]).Rank() < Wanted(env, s.txns[holder]).Rank()
  {
    var wanted := Wanted(env, s.txns[i]);
    holder := s.owner[wanted];
    var t := s.txns[holder];
    assert Holds(env, t, wanted);
    var k :| 0 <= k < HeldCount(env, t) && k < |LockPlan(env, t.call)| && LockPlan(env, t.call)[k] == wanted;
    PlanAscends(env, t.call);
  }

  /** Follow "waits for the holder of" from transaction `i`. Every hop goes to a lock of higher rank, so the
      walk ends at a transaction that can move. */
  lemma {:induction false} FindsOneThatCanMove(env: Env, s: State, i: nat, bound: nat) returns (j: nat)
    requires Inv(env, s) && i < |s.txns| && !Finished(s.txns[i])
    requires forall l :: l in s.owner ==> l.Rank() < bound
    ensures Enabled(env, s, j)
    decreases if s.txns[i].phase.Locking? then 1 + bound - Wanted(env, s.txns[i]).Rank() else 0
  {
    j := i;
    if !Enabled(env, s, i) {
      var holder := HolderWantsMore(env, s, i);
      assert Wanted(env, s.txns[i]) in s.owner;
      j := FindsOneThatCanMove(env, s, holder, bound);
    }
  }

  lemma {:induction false} RanksAreBounded(owner: map<Lock, nat>) returns (bound: nat)
    ensures forall l :: l in owner ==> l.Rank() < bound
    decreases |owner|
  {
    if owner.Keys == {} { return 0; }
    var l :| l in owner;
    var rest := owner - {l};
    assert rest.Keys == owner.Keys - {l};
    var b := RanksAreBounded(rest);
    bound := b + l.Rank() + 1;
    forall m | m in owner ensures m.Rank() < bound {
      if m != l { assert m in rest; }
    }
  }

  function StepsLeft(env: Env, t: Txn): nat {
    match t.phase
    case Locking(held) => 6 + (if held < |LockPlan(env, t.call)| then |LockPlan(env, t.call)| - held else 0)
    case ReadRole => 6
    case ReadActor => 5
    case CheckRemaining => 4
    case Write => 3
    case Commit => 2
    case RollingBack(_) => 1
    case Done(_) => 0
    case Cancelled => 0
  }

  function TotalStepsLeft(env: Env, ts: seq<Txn>): nat {
    if ts == [] then 0 else StepsLeft(env, ts[0]) + TotalStepsLeft(env, ts[1..])
  }

  lemma {:induction false} TotalFallsWithOne(env: Env, ts: seq<Txn>, i: nat, t: Txn)
    requires i < |ts| && StepsLeft(env, t) < StepsLeft(env, ts[i])
    ensures TotalStepsLeft(env, ts[i := t]) < TotalStepsLeft(env, ts)
  {
    if i == 0 {
      assert ts[i := t][1..] == ts[1..];
    } else {
      assert ts[i := t][1..] == ts[1..][i - 1 := t];
      TotalFallsWithOne(env, ts[1..], i - 1, t);
    }
  }

  lemma StepShortens(env: Env, s: State, i: nat)
    requires Enabled(env, s, i) && PhaseFits(env, s.txns[i])
    ensures StepsLeft(env, Step(env, s, i).txns[i]) < StepsLeft(env, s.txns[i])
  {
    var t := s.txns[i];
    if t.phase.Locking? {
      assert Step(env, s, i).txns[i].phase == AcquireNext(env, s, i).txns[i].phase;
    }
  }

  lemma TakeLeavesFewer(env: Env, s: State, turn: Turn)
    requires Inv(env, s) && (if turn.Go? then Enabled(env, s, turn.tid) else CanCancel(s, turn.tid))
    ensures TotalStepsLeft(env, Take(env, s, turn).txns) < TotalStepsLeft(env, s.txns)
  {
    var i, s' := turn.tid, Take(env, s, turn);
    if turn.Go? { StepShortens(env, s, i); }
    TotalFallsWithOne(env, s.txns, i, s'.txns[i]);
  }

  /** No deadlock, and no endless run: as long as a call is unfinished some call can take a step, and
      every turn lowers a bound on the steps that are left. */
  lemma EveryCallFinishes(env: Env, a: Assignments, calls: seq<Call>, schedule: seq<Turn>)
    requires env.Valid() && ValidAssignments(env, a)
    ensures var s := Run(env, Initial(env, a, calls), schedule);
      && ((exists i :: 0 <= i < |s.txns| && !Finished(s.txns[i])) ==> exists j :: Enabled(env, s, j))
      && (forall turn: Turn :: Take(env, s, turn) != s ==>
            TotalStepsLeft(env, Take(env, s, turn).txns) < TotalStepsLeft(env, s.txns))
  {
    var s := Run(env, Initial(env, a, calls), schedule);
    InitialInv(env, a, calls);
    InterleavingsRefineAtomic(env, a, calls, schedule);
    RunKeepsInv(env, a, calls, Initial(env, a, calls), schedule);
    if i :| 0 <= i < |s.txns| && !Finished(s.txns[i]) {
      var bound := RanksAreBounded(s.owner);
      var j := FindsOneThatCanMove(env, s, i, bound);
    }
    forall turn: Turn | Take(env, s, turn) != s
      ensures TotalStepsLeft(env, Take(env, s, turn).txns) < TotalStepsLeft(env, s.txns)
    {
      TakeLeavesFewer(env, s, turn);
    }
  }
}
