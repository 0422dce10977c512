/** Short runs of two token calls: links whose distance falls short of the rate limit by exactly the time that
    a call waited, and revocations of all sessions that wait for each other. */
module AuthRaces {
  import opened Permissions
  import opened AuthTables
  import opened AuthProtocol
  import opened AuthInvariants
  import opened AuthDeadlock
  import opened Graphs
  import AuthHistory

  // ---- Traces -------------------------------------------------------------------------------------

  /** Everything about a state except its chains; all digests below `k` have been generated, and no other. */
  datatype Frame = Frame(cfg: Config, t: Tables, now: Time, txns: map<nat, Txn>, log: seq<Event>, k: nat) {
    function Begun(tid: nat, call: Call): Frame { this.(txns := txns[tid := AuthProtocol.Begun(call)]) }

    predicate Free(tid: nat)
      requires tid in txns
    {
      forall j :: j in txns && j != tid ==> !Blocks(t, txns[j], txns[tid])
    }

    /** `x` is what the next step of `tid` makes of it, given `order`. */
    predicate LeadsTo(tid: nat, order: seq<Hash>, x: Txn) {
      && tid in txns && !txns[tid].phase.Commit? && !txns[tid].phase.Done? && Free(tid)
      && (txns[tid].phase.FindSessions? ==> Lists(order, UnrevokedOf(t, txns[tid].user)))
      && x == Advance(cfg, t, now, txns[tid], Given(k, order))
    }

    function Stepped(tid: nat, x: Txn): Frame { this.(txns := txns[tid := x], k := k + 1) }

    function Committed(tid: nat): Frame
      requires tid in txns
    {
      this.(t := Apply(t, txns[tid].writes), txns := txns[tid := End(txns[tid], Completed)],
            log := log + [EventOf(txns[tid])])
    }
  }

  /** Actions that have led from a start to a state that looks like `f`. */
  datatype Trace = Trace(actions: seq<Action>, f: Frame)

  ghost predicate Reaches(s: State, r: Trace) {
    var s' := Run(r.f.cfg, s, r.actions);
    && s'.t == r.f.t && s'.now == r.f.now && s'.txns == r.f.txns && s'.log == r.f.log
    && forall h :: h in s'.known ==> h < r.f.k
  }

  lemma {:induction false} RunOneMore(cfg: Config, s: State, actions: seq<Action>, a: Action)
    requires Enabled(Run(cfg, s, actions), a)
    ensures Run(cfg, s, actions + [a]) == Next(cfg, Run(cfg, s, actions), a)
    decreases |actions|
  {
    if actions == [] {
      assert actions + [a] == [a];
      assert Run(cfg, s, [a]) == Run(cfg, Next(cfg, s, a), [a][1..]);
    } else {
      assert (actions + [a])[1..] == actions[1..] + [a];
      RunOneMore(cfg, if Enabled(s, actions[0]) then Next(cfg, s, actions[0]) else s, actions[1..], a);
    }
  }

  lemma Begins(s: State, r: Trace, tid: nat, call: Call) returns (r': Trace)
    requires Reaches(s, r) && tid !in r.f.txns
    ensures Reaches(s, r') && r'.f == r.f.Begun(tid, call)
  {
    r' := Trace(r.actions + [Begin(tid, call)], r.f.Begun(tid, call));
    RunOneMore(r.f.cfg, s, r.actions, Begin(tid, call));
  }

  lemma Passes(s: State, r: Trace, later: Time) returns (r': Trace)
    requires Reaches(s, r) && later >= r.f.now
    ensures Reaches(s, r') && r'.f == r.f.(now := later)
  {
    r' := Trace(r.actions + [Tick(later)], r.f.(now := later));
    RunOneMore(r.f.cfg, s, r.actions, Tick(later));
  }

  lemma Steps(s: State, r: Trace, tid: nat, order: seq<Hash>, x: Txn) returns (r': Trace)
    requires Reaches(s, r) && r.f.LeadsTo(tid, order, x)
    ensures Reaches(s, r') && r'.f == r.f.Stepped(tid, x)
  {
    var a := Step(tid, Given(r.f.k, order));
    r' := Trace(r.actions + [a], r.f.Stepped(tid, x));
    RunOneMore(r.f.cfg, s, r.actions, a);
  }

  lemma Commits(s: State, r: Trace, tid: nat) returns (r': Trace)
    requires Reaches(s, r) && tid in r.f.txns && r.f.txns[tid].phase.Commit?
    ensures Reaches(s, r') && r'.f == r.f.Committed(tid)
  {
    var a := Step(tid, Given(r.f.k, []));
    r' := Trace(r.actions + [a], r.f.Committed(tid));
    assert Enabled(Run(r.f.cfg, s, r.actions), a);
    RunOneMore(r.f.cfg, s, r.actions, a);
  }

  // ---- Two links ----------------------------------------------------------------------------------

  const EMPTY := Tables(map[], map[], {})
  const NOTHING := State(EMPTY, 0, map[], {}, map[], [])

  /** A call that issues a link to `u`, begun at `start`, that checked the rate limit at `checked`. */
  function Issuing(u: UserId, start: Time, checked: Time, phase: Phase): Txn {
    AuthProtocol.Begun(Issue(u)).(phase := phase, start := start, checked := checked,
      locked := phase.CheckRate? || phase.Invalidate? || phase.CreateLink? || phase.Commit?)
  }

  function Creating(u: UserId, start: Time, checked: Time, used: set<Hash>): Txn {
    Issuing(u, start, checked, CreateLink).(writes := NO_WRITES.(used := used))
  }

  function Link(cfg: Config, u: UserId, start: Time, now: Time): MagicLink {
    MagicLink(u, now + cfg.magicTTL, false, start)
  }

  function Created(cfg: Config, u: UserId, start: Time, now: Time, used: set<Hash>, token: Hash): Txn {
    Issuing(u, start, now, Commit).(token := token,
      writes := NO_WRITES.(used := used, magic := map[token := Link(cfg, u, start, now)]))
  }

  /** Up to the lock. */
  lemma Starts(s: State, before: Trace, tid: nat, u: UserId) returns (r: Trace)
    requires Reaches(s, before) && tid !in before.f.txns
    ensures Reaches(s, r)
    ensures r.f == before.f.(txns := before.f.txns[tid := Issuing(u, before.f.now, 0, LockUser)], k := before.f.k + 1)
  {
    r := Begins(s, before, tid, Issue(u));
    r := Steps(s, r, tid, [], Issuing(u, before.f.now, 0, LockUser));
  }

  /** Nobody else holds anything. */
  predicate Unopposed(f: Frame, tid: nat) {
    tid in f.txns && forall j :: j in f.txns && j != tid ==> !f.txns[j].locked && f.txns[j].writes == NO_WRITES
  }

  /** From the lock to the commit, if the rate limit allows it. */
  lemma Checks(s: State, before: Trace, tid: nat, u: UserId, start: Time) returns (r: Trace)
    requires Reaches(s, before) && Unopposed(before.f, tid) && before.f.txns[tid] == Issuing(u, start, 0, LockUser)
    requires u in before.f.cfg.users && !RateLimited(before.f.cfg, before.f.t, u, before.f.now)
    ensures Reaches(s, r)
    ensures r.f == before.f.(
      txns := before.f.txns[tid := Issuing(u, start, before.f.now, Invalidate)], k := before.f.k + 2)
  {
    r := Steps(s, before, tid, [], Issuing(u, start, 0, CheckRate));
    r := Steps(s, r, tid, [], Issuing(u, start, before.f.now, Invalidate));
  }

  lemma Creates(s: State, before: Trace, tid: nat, u: UserId, start: Time) returns (r: Trace)
    requires Reaches(s, before) && Unopposed(before.f, tid)
    requires before.f.txns[tid] == Issuing(u, start, before.f.now, Invalidate)
    ensures Reaches(s, r)
    ensures var f := before.f;
      r.f == f.(txns := f.txns[tid := Created(f.cfg, u, start, f.now, LiveLinksOf(f.t, u, start), f.k + 1)],
                k := f.k + 2)
  {
    var f := before.f;
    r := Steps(s, before, tid, [], Creating(u, start, f.now, LiveLinksOf(f.t, u, start)));
    r := Steps(s, r, tid, [], Created(f.cfg, u, start, f.now, LiveLinksOf(f.t, u, start), f.k + 1));
  }

  /** The first link, at time 0, while nothing else happens. */
  function First(cfg: Config, u: UserId): Txn { Created(cfg, u, 0, 0, {}, 4) }

  lemma FirstIsCreated(cfg: Config, u: UserId) returns (r: Trace)
    requires u in cfg.users
    ensures Reaches(NOTHING, r) && r.f == Frame(cfg, EMPTY, 0, map[0 := First(cfg, u)], [], 5)
  {
    r := Trace([], Frame(cfg, EMPTY, 0, map[], [], 0));
    r := Starts(NOTHING, r, 0, u);
    r := Checks(NOTHING, r, 0, u, 0);
    r := Creates(NOTHING, r, 0, u, 0);
    assert LiveLinksOf(EMPTY, u, 0) == {};
  }

  function OneLink(cfg: Config, u: UserId): Tables { EMPTY.(magic := map[4 := Link(cfg, u, 0, 0)]) }

  /** The second call begins at `start`, while the first holds the lock, and gets the lock at time L. */
  lemma SecondWaits(cfg: Config, u: UserId, start: nat) returns (r: Trace)
    requires u in cfg.users && start <= cfg.rateLimit
    ensures Reaches(NOTHING, r)
    ensures r.f == Frame(cfg, OneLink(cfg, u), cfg.rateLimit,
                         map[0 := End(First(cfg, u), Completed), 1 := Issuing(u, start, 0, LockUser)],
                         [Issued(u, 4, 0, 0)], 6)
  {
    r := FirstIsCreated(cfg, u);
    r := Passes(NOTHING, r, start);
    r := Starts(NOTHING, r, 1, u);
    r := Commits(NOTHING, r, 0);
    assert Apply(EMPTY, First(cfg, u).writes) == OneLink(cfg, u);
    r := Passes(NOTHING, r, cfg.rateLimit);
  }

  /** Whatever the rate limit L, and however long up to L a call waits for the user lock: two links to one user
      with creation times that are apart by L less the wait, and not more. */
  lemma WaitingShortensDistance(cfg: Config, u: UserId, wait: nat) returns (r: Trace)
    requires u in cfg.users && 0 < cfg.rateLimit && wait <= cfg.rateLimit
    ensures var s', start := Run(cfg, NOTHING, r.actions), cfg.rateLimit - wait;
      && s'.log == [Issued(u, 4, 0, 0), Issued(u, 9, start, start + wait)]
      && 4 in s'.t.magic && s'.t.magic[4].created == 0 && 9 in s'.t.magic && s'.t.magic[9].created == start
  {
    var start := cfg.rateLimit - wait;
    r := SecondIsCreated(cfg, u, start);
    r := Commits(NOTHING, r, 1);
  }

  lemma SecondIsCreated(cfg: Config, u: UserId, start: nat) returns (r: Trace)
    requires u in cfg.users && 0 < cfg.rateLimit && start <= cfg.rateLimit
    ensures Reaches(NOTHING, r)
    ensures r.f == Frame(cfg, OneLink(cfg, u), cfg.rateLimit,
                         map[0 := End(First(cfg, u), Completed),
                             1 := Created(cfg, u, start, cfg.rateLimit, LiveLinksOf(OneLink(cfg, u), u, start), 9)],
                         [Issued(u, 4, 0, 0)], 10)
  {
    r := SecondWaits(cfg, u, start);
    r := Checks(NOTHING, r, 1, u, start);
    r := Creates(NOTHING, r, 1, u, start);
  }

  ghost predicate WaitsAtMost(log: seq<Event>, wait: nat) {
    forall k :: 0 <= k < |log| && log[k].Issued? ==> log[k].checked - log[k].start <= wait
  }

  predicate SameUser(log: seq<Event>, i: nat, j: nat) {
    i < j < |log| && log[i].Issued? && log[j].Issued? && log[i].user == log[j].user
  }

  /** The creation times of any two links issued to one user are at least `gap` apart. */
  ghost predicate LinksApart(s: State, gap: Time) {
    forall i: nat, j: nat :: SameUser(s.log, i, j) ==>
      && s.log[i].link in s.t.magic && s.log[j].link in s.t.magic
      && s.t.magic[s.log[j].link].created - s.t.magic[s.log[i].link].created >= gap
  }

  /** Every run in which no call waits longer than `wait` for the user lock keeps links `gap` apart. */
  ghost predicate WaitsKeep(cfg: Config, wait: nat, gap: Time) {
    forall s, actions :: Initial(s) && WaitsAtMost(Run(cfg, s, actions).log, wait) ==>
      LinksApart(Run(cfg, s, actions), gap)
  }

  /** How long calls may wait: links stay `gap` apart in all runs exactly when no wait exceeds the rate limit
      less the gap. */
  lemma AllowedWait(cfg: Config, wait: nat, gap: Time)
    requires cfg.users != {} && cfg.rateLimit > 0 && gap > 0
    ensures WaitsKeep(cfg, wait, gap) <==> wait <= cfg.rateLimit - gap
  {
    if wait <= cfg.rateLimit - gap {
      forall s, actions | Initial(s) && WaitsAtMost(Run(cfg, s, actions).log, wait)
        ensures LinksApart(Run(cfg, s, actions), gap)
      {
        ShortWaitsKeep(cfg, s, actions, wait, gap);
      }
    } else {
      var u :| u in cfg.users;
      var d: nat := if wait <= cfg.rateLimit then wait else cfg.rateLimit;
      var r := WaitingShortensDistance(cfg, u, d);
      var s' := Run(cfg, NOTHING, r.actions);
      assert WaitsAtMost(s'.log, wait) && SameUser(s'.log, 0, 1) && !LinksApart(s', gap);
    }
  }

  lemma ShortWaitsKeep(cfg: Config, s: State, actions: seq<Action>, wait: nat, gap: Time)
    requires Initial(s) && gap > 0 && wait <= cfg.rateLimit - gap && WaitsAtMost(Run(cfg, s, actions).log, wait)
    ensures LinksApart(Run(cfg, s, actions), gap)
  {
    var s' := Run(cfg, s, actions);
    forall i: nat, j: nat | SameUser(s'.log, i, j)
      ensures s'.log[i].link in s'.t.magic && s'.log[j].link in s'.t.magic
      ensures s'.t.magic[s'.log[j].link].created - s'.t.magic[s'.log[i].link].created >= gap
    {
      AuthHistory.IssuancesKeepDistance(cfg, s, actions, i, j);
    }
  }

  // ---- Two revocations ------------------------------------------------------------------------------

  const SESSION := Refresh(0, 100, false)
  const SESSIONS := Tables(map[], map[0 := SESSION, 1 := SESSION], {})
  const SIGNED_IN := State(SESSIONS, 0, map[], {0, 1}, map[0 := 0, 1 := 1], [])

  /** A revocation of both sessions with those in `queue` still to come. */
  function Revoking(queue: seq<Hash>, revoked: set<Hash>): Txn {
    AuthProtocol.Begun(RevokeAll(0)).(phase := RevokeSessions, seen := {0, 1}, queue := queue,
      writes := NO_WRITES.(revoked := revoked))
  }

  function Both(cfg: Config, x0: Txn, x1: Txn, k: nat): Frame { Frame(cfg, SESSIONS, 0, map[0 := x0, 1 := x1], [], k) }

  lemma BothListed(order: seq<Hash>)
    requires order == [0, 1] || order == [1, 0]
    ensures Lists(order, UnrevokedOf(SESSIONS, 0))
  {
    assert (set h | h in order) == UnrevokedOf(SESSIONS, 0);
  }

  /** A call begins and scans the sessions. */
  lemma Scans(before: Trace, tid: nat, order: seq<Hash>) returns (r: Trace)
    requires Reaches(SIGNED_IN, before) && tid !in before.f.txns && before.f.t == SESSIONS && before.f.now == 0
    requires order == [0, 1] || order == [1, 0]
    ensures Reaches(SIGNED_IN, r)
    ensures r.f == before.f.(txns := before.f.txns[tid := Revoking(order, {})], k := before.f.k + 2)
  {
    r := Begins(SIGNED_IN, before, tid, RevokeAll(0));
    r := Steps(SIGNED_IN, r, tid, [], AuthProtocol.Begun(RevokeAll(0)).(phase := FindSessions));
    BothListed(order);
    r := Steps(SIGNED_IN, r, tid, order, Revoking(order, {}));
  }

  /** It locks the first session it comes to. */
  lemma Locks(before: Trace, tid: nat, h: Hash, g: Hash) returns (r: Trace)
    requires Reaches(SIGNED_IN, before) && before.f.t == SESSIONS && h < 2
    requires tid in before.f.txns && before.f.txns[tid] == Revoking([h, g], {})
    requires forall j :: j in before.f.txns ==> h !in before.f.txns[j].writes.revoked
    ensures Reaches(SIGNED_IN, r)
    ensures r.f == before.f.(txns := before.f.txns[tid := Revoking([g], {h})], k := before.f.k + 1)
  {
    assert h in UnrevokedOf(SESSIONS, 0);
    r := Steps(SIGNED_IN, before, tid, [], Revoking([g], {h}));
  }

  /** Two revocations of all sessions of one user, whose scans find the two sessions in opposite orders: each
      has one session and waits for the other's. Neither can ever take another step. */
  lemma OppositeScansDeadlock(cfg: Config) returns (r: Trace)
    ensures Initial(SIGNED_IN)
    ensures var s' := Run(cfg, SIGNED_IN, r.actions);
      && s'.txns.Keys == {0, 1} && s'.txns[0].call == s'.txns[1].call == RevokeAll(0)
      && Cycle(Competitions(s'), [0, 1])
      && Unfinished(s', 0) && !CanStep(s', 0) && Unfinished(s', 1) && !CanStep(s', 1)
  {
    r := Trace([], Frame(cfg, SESSIONS, 0, map[], [], 2));
    r := Scans(r, 0, [0, 1]);
    r := Locks(r, 0, 0, 1);
    r := Scans(r, 1, [1, 0]);
    r := Locks(r, 1, 1, 0);
    OppositeIsCycle(Run(cfg, SIGNED_IN, r.actions));
  }

  lemma OppositeIsCycle(s: State)
    requires s.t == SESSIONS && s.txns == map[0 := Revoking([1], {0}), 1 := Revoking([0], {1})]
    ensures Cycle(Competitions(s), [0, 1]) && !CanStep(s, 0) && !CanStep(s, 1)
  {
    assert Competes(s, 0, 1) && Competes(s, 1, 0);
    assert (0, 1) in Competitions(s) && (1, 0) in Competitions(s);
    forall k | 0 <= k < 2 ensures ([0, 1][k], After([0, 1], k)) in Competitions(s) {}
    assert Blocks(s.t, s.txns[1], s.txns[0]) && Blocks(s.t, s.txns[0], s.txns[1]);
  }
}
