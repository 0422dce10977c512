/** Any number of concurrent token calls under read-committed isolation, with the link looked up outside
    the transaction, NOW() fixed when the transaction begins, and row locks held until it ends. */
module AuthProtocol {
  import opened Permissions
  import opened AuthTables

  datatype Phase =
    | Lookup         // MagicLinkTokenByHash, before the transaction
    | Start          // BEGIN: fixes NOW()
    | LockUser
    | CheckRate
    | Invalidate
    | CreateLink
    | ConsumeLink
    | MarkVerified
    | ConsumeRefresh
    | CreateRefresh
    | FindSessions | RevokeSessions   // the statement of RevokeAll: its scan, then one row after the other
    | Commit
    | Done(outcome: Outcome)

  datatype Txn = Txn(
    call: Call, phase: Phase, start: Time,
    user: UserId,          // owner of the token, as read
    locked: bool,          // holds the advisory lock of `user`
    checked: Time,         // when the rate limit was checked
    seen: set<Hash>,       // sessions there were when the statement of RevokeAll began
    queue: seq<Hash>,      // sessions it has yet to lock, in the order of its scan
    token: Hash,           // digest of the generated token
    writes: Writes)        // own writes; the rows in `used` and `revoked` are locked

  datatype Event =
    | Issued(user: UserId, link: Hash, start: Time, checked: Time)
    | Verified(link: Hash, session: Hash)
    | Rotated(previous: Hash, session: Hash)
    | Revoked(session: Hash)
    | RevokedAll(sessions: set<Hash>)

  datatype State = State(
    t: Tables, now: Time, txns: map<nat, Txn>,
    known: set<Hash>,           // digests generated so far
    chain: map<Hash, Hash>,     // which link a refresh token goes back to
    log: seq<Event>)            // committed calls, oldest first

  /** What chance adds to a step: the digest of a generated token, and the order in which a scan finds rows. */
  datatype Given = Given(minted: Hash, order: seq<Hash>)

  datatype Action = Begin(tid: nat, call: Call) | Step(tid: nat, given: Given) | Abort(tid: nat) | Tick(later: Time)

  function Begun(call: Call): Txn {
    var user := if call.Issue? || call.RevokeAll? then call.user else 0;
    Txn(call, if call.Verify? then Lookup else Start, 0, user, false, 0, {}, [], 0, NO_WRITES)
  }

  function End(x: Txn, outcome: Outcome): Txn {
    x.(phase := Done(outcome), locked := false, writes := NO_WRITES)
  }

  /** One statement of a transaction at time `now`, seeing the committed tables `t`. */
  function Advance(cfg: Config, t: Tables, now: Time, x: Txn, given: Given): Txn {
    match x.phase
    case Lookup =>
      if x.call.Verify? && LiveLink(t, x.call.hash, now) then x.(phase := Start, user := t.magic[x.call.hash].user)
      else End(x, TokenInvalid)
    case Start =>
      x.(start := now, phase := match x.call
         case Issue(_) => LockUser
         case Verify(_) => ConsumeLink
         case Rotate(_) => Phase.ConsumeRefresh
         case Revoke(_) => Phase.ConsumeRefresh
         case RevokeAll(_) => FindSessions)
    case LockUser => if x.user in cfg.users then x.(phase := CheckRate, locked := true) else End(x, NotFound)
    case CheckRate =>
      if RateLimited(cfg, t, x.user, now) then End(x, TooMany) else x.(phase := Invalidate, checked := now)
    case Invalidate => x.(phase := CreateLink, writes := x.writes.(used := LiveLinksOf(t, x.user, x.start)))
    case CreateLink =>
      x.(phase := Commit, token := given.minted,
         writes := x.writes.(magic := map[given.minted := MagicLink(x.user, now + cfg.magicTTL, false, x.start)]))
    case ConsumeLink =>
      if x.call.Verify? && LiveLink(t, x.call.hash, x.start) then
        x.(phase := MarkVerified, writes := x.writes.(used := {x.call.hash}))
      else End(x, TokenInvalid)
    case MarkVerified => x.(phase := CreateRefresh, writes := x.writes.(verified := {x.user}))
    case ConsumeRefresh =>
      if (x.call.Rotate? || x.call.Revoke?) && LiveRefresh(t, x.call.hash, x.start) then
        x.(phase := if x.call.Rotate? then CreateRefresh else Commit,
           user := t.refresh[x.call.hash].user, writes := x.writes.(revoked := {x.call.hash}))
      else End(x, TokenInvalid)
    case CreateRefresh =>
      x.(phase := Commit, token := given.minted,
         writes := x.writes.(refresh := map[given.minted := Refresh(x.user, now + cfg.refreshTTL, false)]))
    case FindSessions => x.(phase := RevokeSessions, seen := t.refresh.Keys, queue := given.order)
    case RevokeSessions =>
      if x.queue == [] then x.(phase := Commit)
      else x.(queue := x.queue[1..], writes := x.writes.(revoked := x.writes.revoked + WantedSessions(t, x)))
    case Commit => x
    case Done(_) => x
  }

  /** The scan finds every row once. */
  predicate Lists(order: seq<Hash>, rows: set<Hash>) {
    && (set h | h in order) == rows
    && (forall k, m :: 0 <= k < m < |order| ==> order[k] != order[m])
  }

  /** The rows that the next statement has to lock. */
  function WantedLinks(t: Tables, x: Txn): set<Hash> {
    match x.phase
    case Invalidate => LiveLinksOf(t, x.user, x.start)
    case ConsumeLink => if x.call.Verify? && LiveLink(t, x.call.hash, x.start) then {x.call.hash} else {}
    case _ => {}
  }

  function WantedSessions(t: Tables, x: Txn): set<Hash> {
    match x.phase
    case ConsumeRefresh =>
      if (x.call.Rotate? || x.call.Revoke?) && LiveRefresh(t, x.call.hash, x.start) then {x.call.hash} else {}
    case RevokeSessions => if x.queue != [] && x.queue[0] in UnrevokedOf(t, x.user) then {x.queue[0]} else {}
    case _ => {}
  }

  ghost predicate Enabled(s: State, a: Action) {
    match a
    case Begin(tid, call) => tid !in s.txns
    case Abort(tid) => tid in s.txns && !s.txns[tid].phase.Done?
    case Tick(later) => later >= s.now
    case Step(tid, given) =>
      && tid in s.txns && !s.txns[tid].phase.Done? && given.minted !in s.known
      && (s.txns[tid].phase.FindSessions? ==> Lists(given.order, UnrevokedOf(s.t, s.txns[tid].user)))
      && forall j :: j in s.txns && j != tid ==> !Blocks(s.t, s.txns[j], s.txns[tid])
  }

  /** `y` holds a lock that the next statement of `x` needs: the lock of the user, a row of a token, or the
      user's own row. */
  predicate Blocks(t: Tables, y: Txn, x: Txn) {
    || (x.phase.LockUser? && y.locked && y.user == x.user)
    || !(WantedLinks(t, x) !! y.writes.used)
    || !(WantedSessions(t, x) !! y.writes.revoked)
    || (x.phase.MarkVerified? && x.user in y.writes.verified)
  }

  function EventOf(x: Txn): Event {
    match x.call
    case Issue(u) => Issued(u, x.token, x.start, x.checked)
    case Verify(h) => Verified(h, x.token)
    case Rotate(h) => Rotated(h, x.token)
    case Revoke(h) => Revoked(h)
    case RevokeAll(_) => RevokedAll(x.writes.revoked)
  }

  /** The chain that a commit's new session continues or starts. */
  function ChainAfter(chain: map<Hash, Hash>, x: Txn): map<Hash, Hash> {
    match x.call
    case Verify(h) => chain[x.token := h]
    case Rotate(h) => if h in chain then chain[x.token := chain[h]] else chain
    case _ => chain
  }

  function CommitTxn(s: State, tid: nat): State
    requires tid in s.txns
  {
    var x := s.txns[tid];
    s.(t := Apply(s.t, x.writes), txns := s.txns[tid := End(x, Completed)],
       chain := ChainAfter(s.chain, x), log := s.log + [EventOf(x)])
  }

  ghost function Next(cfg: Config, s: State, a: Action): State
    requires Enabled(s, a)
  {
    match a
    case Begin(tid, call) => s.(txns := s.txns[tid := Begun(call)])
    case Abort(tid) => s.(txns := s.txns[tid := End(s.txns[tid], Aborted)])
    case Tick(later) => s.(now := later)
    case Step(tid, given) =>
      if s.txns[tid].phase.Commit? then CommitTxn(s, tid)
      else s.(txns := s.txns[tid := Advance(cfg, s.t, s.now, s.txns[tid], given)],
              known := s.known + {given.minted})
  }

  ghost function Run(cfg: Config, s: State, actions: seq<Action>): State
    decreases |actions|
  {
    if actions == [] then s
    else Run(cfg, if Enabled(s, actions[0]) then Next(cfg, s, actions[0]) else s, actions[1..])
  }
}
