/** Who waits for whom among token calls, and when that never ends. Issuing takes the user lock, then rows of
    links; redeeming takes the row of a link, then the user's row; both then run. Only a revocation of all
    sessions locks row after row in the order of its scan, so only such calls can wait for each other. */
module AuthDeadlock {
  import opened Permissions
  import opened AuthTables
  import opened AuthProtocol
  import opened AuthInvariants
  import opened AuthHistory
  import opened Graphs
  import Sets

  predicate Unfinished(s: State, i: nat) { i in s.txns && !s.txns[i].phase.Done? }

  ghost predicate CanStep(s: State, i: nat) { exists given :: Enabled(s, Step(i, given)) }

  ghost function Waits(s: State): Edges {
    set i, j | i in s.txns && j in s.txns && i != j && Unfinished(s, i) && Blocks(s.t, s.txns[j], s.txns[i]) :: (i, j)
  }

  lemma {:induction false} SomeOrder(rows: set<Hash>) returns (order: seq<Hash>)
    ensures Lists(order, rows)
  {
    order := [];
    if rows != {} {
      var h :| h in rows;
      var rest := SomeOrder(rows - {h});
      forall g ensures g in rest <==> g in rows && g != h {
        assert g in (set f | f in rest) <==> g in rows - {h};
      }
      order := [h] + rest;
    }
  }

  /** The relation is exact: a call can take its next step if and only if it waits for nobody. */
  lemma StepsUnlessWaiting(s: State, i: nat)
    requires Unfinished(s, i)
    ensures CanStep(s, i) <==> forall j: nat :: (i, j) !in Waits(s)
  {
    if CanStep(s, i) {
      var given :| Enabled(s, Step(i, given));
      forall j: nat ensures (i, j) !in Waits(s) {}
    } else {
      var minted := Sets.SomethingNew(s.known);
      var order := SomeOrder(UnrevokedOf(s.t, s.txns[i].user));
      assert !Enabled(s, Step(i, Given(minted, order)));
      var j :| j in s.txns && j != i && Blocks(s.t, s.txns[j], s.txns[i]);
      assert (i, j) in Waits(s);
    }
  }

  // ---- Whom a call can wait for -----------------------------------------------------------------------

  function Rank(x: Txn): nat {
    match x.phase
    case LockUser => 0
    case Invalidate => 1
    case ConsumeLink => 1
    case MarkVerified => 2
    case ConsumeRefresh => 2
    case RevokeSessions => 3
    case _ => 4
  }

  ghost function Ranks(s: State): map<nat, nat> { map i | i in s.txns :: Rank(s.txns[i]) }

  ghost predicate AllFit(s: State) { forall i :: i in s.txns ==> TxnInv(s.t, s.now, s.txns[i]) }

  /** `i` and `j` are revoking all sessions of one user, and `j` has the next session that `i` comes to. */
  predicate Competes(s: State, i: nat, j: nat) {
    && i in s.txns && j in s.txns && i != j
    && s.txns[i].phase.RevokeSessions? && s.txns[j].phase.RevokeSessions?
    && s.txns[i].queue != [] && s.txns[i].queue[0] in UnrevokedOf(s.t, s.txns[i].user)
    && s.txns[i].queue[0] in s.txns[j].writes.revoked
  }

  ghost function Competitions(s: State): Edges {
    set i, j | i in s.txns && j in s.txns && Competes(s, i, j) :: (i, j)
  }

  lemma WaitsUpward(s: State, i: nat, j: nat)
    requires AllFit(s) && (i, j) in Waits(s)
    ensures Unfinished(s, j) && Rank(s.txns[i]) <= 3
    ensures Rank(s.txns[i]) < Rank(s.txns[j]) || Competes(s, i, j)
  {
    assert TxnInv(s.t, s.now, s.txns[i]) && TxnInv(s.t, s.now, s.txns[j]);
  }

  lemma WaitsRise(s: State)
    requires AllFit(s)
    ensures Rising(Waits(s), Ranks(s), 3) && TopEdges(Waits(s), Competitions(s), Ranks(s), 3)
  {
    forall i: nat, j: nat | (i, j) in Waits(s)
      ensures i in Ranks(s) && j in Ranks(s) && Ranks(s)[i] <= 3
      ensures Ranks(s)[i] < Ranks(s)[j] || Ranks(s)[i] == Ranks(s)[j] == 3
      ensures Ranks(s)[i] == Ranks(s)[j] == 3 ==> (i, j) in Competitions(s)
    {
      WaitsUpward(s, i, j);
    }
    forall x | x in Competitions(s) ensures x in Waits(s) {
      assert Competes(s, x.0, x.1);
    }
  }

  function AllUnfinished(s: State): set<nat> { set i | i in s.txns && Unfinished(s, i) }

  lemma UnfinishedAreStuck(s: State)
    requires AllFit(s) && AllUnfinished(s) != {} && forall i :: Unfinished(s, i) ==> !CanStep(s, i)
    ensures Stuck(Waits(s), AllUnfinished(s))
  {
    forall i: nat | i in AllUnfinished(s) ensures HasNext(Waits(s), AllUnfinished(s), i) {
      StepsUnlessWaiting(s, i);
      var j: nat :| (i, j) in Waits(s);
      WaitsUpward(s, i, j);
      assert j in AllUnfinished(s);
    }
  }

  // ---- Every reachable state ---------------------------------------------------------------------------

  lemma Reached(cfg: Config, s: State, actions: seq<Action>)
    requires Initial(s)
    ensures Inv(Run(cfg, s, actions)) && AllFit(Run(cfg, s, actions))
  {
    RunKeepsAll(cfg, s, s, actions);
  }

  /** Token calls deadlock exactly when revocations of all sessions wait in a cycle for each other's rows. */
  lemma DeadlocksAreRevocations(cfg: Config, s: State, actions: seq<Action>)
    requires Initial(s)
    ensures var s1 := Run(cfg, s, actions);
      (exists d :: Stuck(Waits(s1), d)) <==> (exists c :: Cycle(Competitions(s1), c))
  {
    Reached(cfg, s, actions);
    var s1 := Run(cfg, s, actions);
    WaitsRise(s1);
    StuckExactlyWhen(Waits(s1), Competitions(s1), Ranks(s1), 3);
  }

  lemma CallsMove(s: State)
    requires AllFit(s)
    ensures (forall i :: Unfinished(s, i) ==> !CanStep(s, i)) <==>
            (forall i :: Unfinished(s, i) ==> Leads(Waits(s), Competitions(s), i))
  {
    WaitsRise(s);
    if forall i :: Unfinished(s, i) ==> !CanStep(s, i) {
      forall i | Unfinished(s, i) ensures Leads(Waits(s), Competitions(s), i) {
        assert i in AllUnfinished(s);
        UnfinishedAreStuck(s);
        StuckLeads(Waits(s), Competitions(s), AllUnfinished(s), i, Ranks(s), 3);
      }
    }
    if forall i :: Unfinished(s, i) ==> Leads(Waits(s), Competitions(s), i) {
      forall i | Unfinished(s, i) ensures !CanStep(s, i) {
        LedHasEdge(Waits(s), Competitions(s), i);
        StepsUnlessWaiting(s, i);
      }
    }
  }

  /** In every reachable state: no unfinished call can take a step exactly when the waits of every one lead
      to such a cycle; and without one, as long as a call is unfinished, some call can. */
  lemma NobodyMovesExactlyWhen(cfg: Config, s: State, actions: seq<Action>)
    requires Initial(s)
    ensures var s1 := Run(cfg, s, actions);
      && ((forall i :: Unfinished(s1, i) ==> !CanStep(s1, i)) <==>
          (forall i :: Unfinished(s1, i) ==> Leads(Waits(s1), Competitions(s1), i)))
      && ((exists i :: Unfinished(s1, i)) && !(exists c :: Cycle(Competitions(s1), c)) ==> exists i :: CanStep(s1, i))
  {
    Reached(cfg, s, actions);
    CallsMove(Run(cfg, s, actions));
  }

  // ---- When there is none ----------------------------------------------------------------------------------

  function Place(pos: map<Hash, nat>, h: Hash): nat { if h in pos then pos[h] else 0 }

  /** A revocation has taken its rows in the order `pos`, and goes on in it. */
  ghost predicate InOrder(pos: map<Hash, nat>, x: Txn) {
    x.phase.RevokeSessions? ==>
      && Ascends(pos, x.queue)
      && forall h :: h in x.writes.revoked && x.queue != [] ==> Place(pos, h) < Place(pos, x.queue[0])
  }

  predicate Ascends(pos: map<Hash, nat>, order: seq<Hash>) {
    forall k, m :: 0 <= k < m < |order| ==> Place(pos, order[k]) < Place(pos, order[m])
  }

  /** Every scan of the run finds rows in the order `pos`. */
  ghost predicate ScansAgree(pos: map<Hash, nat>, actions: seq<Action>) {
    forall k :: 0 <= k < |actions| && actions[k].Step? ==> Ascends(pos, actions[k].given.order)
  }

  lemma AdvanceInOrder(cfg: Config, t: Tables, now: Time, x: Txn, given: Given, pos: map<Hash, nat>)
    requires TxnInv(t, now, x) && InOrder(pos, x) && Ascends(pos, given.order) && !x.phase.Commit? && !x.phase.Done?
    ensures InOrder(pos, Advance(cfg, t, now, x, given))
  {
  }

  lemma {:induction false} RunInOrder(cfg: Config, s: State, actions: seq<Action>, pos: map<Hash, nat>)
    requires Inv(s) && ScansAgree(pos, actions) && forall i :: i in s.txns ==> InOrder(pos, s.txns[i])
    ensures forall i :: i in Run(cfg, s, actions).txns ==> InOrder(pos, Run(cfg, s, actions).txns[i])
    decreases |actions|
  {
    if actions != [] {
      var a := actions[0];
      if Enabled(s, a) {
        NextKeepsInv(cfg, s, a);
        NextInOrder(cfg, s, a, pos);
        RunInOrder(cfg, Next(cfg, s, a), actions[1..], pos);
      } else {
        RunInOrder(cfg, s, actions[1..], pos);
      }
    }
  }

  lemma NextInOrder(cfg: Config, s: State, a: Action, pos: map<Hash, nat>)
    requires Inv(s) && Enabled(s, a) && (a.Step? ==> Ascends(pos, a.given.order))
    requires forall i :: i in s.txns ==> InOrder(pos, s.txns[i])
    ensures forall i :: i in Next(cfg, s, a).txns ==> InOrder(pos, Next(cfg, s, a).txns[i])
  {
    if a.Step? && !s.txns[a.tid].phase.Commit? {
      assert TxnInv(s.t, s.now, s.txns[a.tid]) && InOrder(pos, s.txns[a.tid]);
      AdvanceInOrder(cfg, s.t, s.now, s.txns[a.tid], a.given, pos);
    }
    forall i | i in Next(cfg, s, a).txns ensures InOrder(pos, Next(cfg, s, a).txns[i]) {
      if i in s.txns { assert InOrder(pos, s.txns[i]); }
    }
  }

  ghost function Positions(s: State, pos: map<Hash, nat>): map<nat, nat> {
    map i | i in s.txns :: if s.txns[i].queue != [] then Place(pos, s.txns[i].queue[0]) else 0
  }

  lemma OrderBreaksCycles(s: State, pos: map<Hash, nat>, c: seq<nat>, top: nat)
    requires forall i :: i in s.txns ==> InOrder(pos, s.txns[i])
    requires forall i :: i in s.txns ==> Positions(s, pos)[i] < top
    ensures !Cycle(Competitions(s), c)
  {
    var e, rank := Competitions(s), Positions(s, pos) + map i | i in s.txns && s.txns[i].queue == [] :: top;
    forall i: nat, j: nat | (i, j) in e
      ensures i in rank && j in rank && rank[i] <= top && rank[i] < rank[j]
    {
      assert Competes(s, i, j) && InOrder(pos, s.txns[j]);
    }
    if Cycle(e, c) {
      assert (c[0], After(c, 0)) in e;
      CyclesAreAtTheTop(e, c, rank, top);
    }
  }

  lemma {:induction false} SomeBound(m: map<nat, nat>) returns (top: nat)
    ensures forall i :: i in m ==> m[i] < top
    decreases |m.Keys|
  {
    top := 0;
    if m.Keys != {} {
      var i :| i in m;
      var rest := SomeBound(m - {i});
      top := rest + m[i] + 1;
      forall k | k in m ensures m[k] < top {
        if k != i { assert k in m - {i}; }
      }
    }
  }

  /** No deadlock, if all scans find the sessions of a user in one common order. */
  lemma CommonOrderMoves(cfg: Config, s: State, actions: seq<Action>, pos: map<Hash, nat>)
    requires Initial(s) && ScansAgree(pos, actions) && exists i :: Unfinished(Run(cfg, s, actions), i)
    ensures exists i :: CanStep(Run(cfg, s, actions), i)
  {
    RunKeepsAll(cfg, s, s, []);
    RunInOrder(cfg, s, actions, pos);
    NobodyMovesExactlyWhen(cfg, s, actions);
    var s1 := Run(cfg, s, actions);
    var top := SomeBound(Positions(s1, pos));
    forall c ensures !Cycle(Competitions(s1), c) { OrderBreaksCycles(s1, pos, c, top); }
  }

  predicate Revoking(s: State, i: nat) { Unfinished(s, i) && s.txns[i].call.RevokeAll? }

  /** Each user has at most one revocation of all sessions in flight. */
  ghost predicate OneRevocationPerUser(s: State) {
    forall i, j :: Revoking(s, i) && Revoking(s, j) && s.txns[i].call.user == s.txns[j].call.user ==> i == j
  }

  ghost predicate OwnRows(s: State) {
    forall i :: i in s.txns && s.txns[i].call.RevokeAll? ==>
      && s.txns[i].user == s.txns[i].call.user
      && forall h :: h in s.txns[i].writes.revoked ==> h in s.t.refresh && s.t.refresh[h].user == s.txns[i].user
  }

  lemma RivalsShareUser(s: State, i: nat, j: nat)
    requires AllFit(s) && OwnRows(s) && Competes(s, i, j)
    ensures Revoking(s, i) && Revoking(s, j) && s.txns[i].call.user == s.txns[j].call.user
  {
    assert TxnInv(s.t, s.now, s.txns[i]) && TxnInv(s.t, s.now, s.txns[j]);
  }

  /** Nor is there one as long as nobody starts to revoke all sessions of a user while that is going on: some
      unfinished call can take a step. */
  lemma OneRevocationMoves(cfg: Config, s: State, actions: seq<Action>)
    requires Initial(s) && OneRevocationPerUser(Run(cfg, s, actions)) && exists i :: Unfinished(Run(cfg, s, actions), i)
    ensures exists i :: CanStep(Run(cfg, s, actions), i)
  {
    var s1 := Run(cfg, s, actions);
    Reached(cfg, s, actions);
    RunKeepsHistory(cfg, s.t, s, actions);
    assert OwnRows(s1) by {
      forall i | i in s1.txns ensures TxnHistory(cfg, s1.t, s1.now, s1.txns[i]) {}
    }
    NobodyMovesExactlyWhen(cfg, s, actions);
    forall c ensures !Cycle(Competitions(s1), c) {
      if Cycle(Competitions(s1), c) {
        assert (c[0], After(c, 0)) in Competitions(s1);
        RivalsShareUser(s1, c[0], After(c, 0));
      }
    }
  }

  // ---- Steps -------------------------------------------------------------------------------------------------

  function Stage(phase: Phase): nat {
    match phase
    case Lookup => 8
    case Start => 7
    case LockUser => 6
    case CheckRate => 5
    case Invalidate => 4
    case CreateLink => 3
    case ConsumeLink => 6
    case MarkVerified => 5
    case ConsumeRefresh => 6
    case CreateRefresh => 4
    case FindSessions => 6
    case RevokeSessions => 5
    case Commit => 2
    case Done(_) => 0
  }

  /** A later stage, or a session less to revoke. */
  predicate Nearer(x': Txn, x: Txn) {
    || Stage(x'.phase) < Stage(x.phase)
    || (x.phase.RevokeSessions? && x'.phase.RevokeSessions? && |x'.queue| < |x.queue|)
  }

  lemma AdvanceIsNearer(cfg: Config, t: Tables, now: Time, x: Txn, given: Given)
    requires !x.phase.Done? && !x.phase.Commit?
    ensures Nearer(Advance(cfg, t, now, x, given), x)
  {
  }

  /** Every step of a call brings it to a later stage, or takes one session off those it has to revoke, and
      leaves every other call where it is. */
  lemma CallsFinish(cfg: Config, s: State, a: Action)
    requires Enabled(s, a) && a.Step?
    ensures var s' := Next(cfg, s, a);
      && a.tid in s'.txns && Nearer(s'.txns[a.tid], s.txns[a.tid])
      && forall j :: j in s.txns && j != a.tid ==> j in s'.txns && s'.txns[j] == s.txns[j]
  {
    if !s.txns[a.tid].phase.Commit? { AdvanceIsNearer(cfg, s.t, s.now, s.txns[a.tid], a.given); }
  }
}
