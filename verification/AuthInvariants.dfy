/** What every interleaving of token calls keeps: at most one live link per user, at most one pair per
    link, at most one unrevoked session per chain, and the number of sessions. */
module AuthInvariants {
  import opened Permissions
  import opened AuthTables
  import opened AuthProtocol

  predicate PhaseFits(x: Txn) {
    match x.phase
    case Lookup => x.call.Verify?
    case LockUser => x.call.Issue?
    case CheckRate => x.call.Issue?
    case Invalidate => x.call.Issue?
    case CreateLink => x.call.Issue?
    case ConsumeLink => x.call.Verify?
    case MarkVerified => x.call.Verify?
    case ConsumeRefresh => x.call.Rotate? || x.call.Revoke?
    case CreateRefresh => x.call.Verify? || x.call.Rotate?
    case FindSessions => x.call.RevokeAll?
    case RevokeSessions => x.call.RevokeAll?
    case _ => true
  }

  /** The rows a transaction holds back until its commit. */
  ghost predicate WritesFit(x: Txn) {
    match x.phase
    case CreateLink => x.writes == NO_WRITES.(used := x.writes.used)
    case MarkVerified => x.call.Verify? && x.writes == NO_WRITES.(used := {x.call.hash})
    case CreateRefresh =>
      if x.call.Verify? then x.writes == NO_WRITES.(used := {x.call.hash}, verified := {x.user})
      else x.call.Rotate? && x.writes == NO_WRITES.(revoked := {x.call.hash})
    case RevokeSessions => x.writes == NO_WRITES.(revoked := x.writes.revoked)
    case Commit => CommitFits(x)
    case _ => x.writes == NO_WRITES
  }

  ghost predicate CommitFits(x: Txn) {
    match x.call
    case Issue(u) =>
      && x.writes == NO_WRITES.(used := x.writes.used, magic := x.writes.magic)
      && x.writes.magic.Keys == {x.token} && x.writes.magic[x.token].user == x.user && !x.writes.magic[x.token].used
    case Verify(h) => x.writes == NO_WRITES.(used := {h}, verified := {x.user}, refresh := x.writes.refresh)
      && NewSession(x)
    case Rotate(h) => x.writes == NO_WRITES.(revoked := {h}, refresh := x.writes.refresh) && NewSession(x)
    case Revoke(h) => x.writes == NO_WRITES.(revoked := {h})
    case RevokeAll(_) => x.writes == NO_WRITES.(revoked := x.writes.revoked)
  }

  ghost predicate NewSession(x: Txn) {
    x.writes.refresh.Keys == {x.token} && !x.writes.refresh[x.token].revoked
  }

  /** No other unused link of the user is still valid at the transaction's own NOW(). */
  ghost predicate Cleared(t: Tables, x: Txn) {
    forall h :: h in t.magic && t.magic[h].user == x.user && !t.magic[h].used ==>
      h in x.writes.used || t.magic[h].expires <= x.start
  }

  ghost predicate TxnInv(t: Tables, now: Time, x: Txn) {
    && PhaseFits(x) && WritesFit(x)
    && (x.locked <==>
          x.call.Issue? && (x.phase.CheckRate? || x.phase.Invalidate? || x.phase.CreateLink? || x.phase.Commit?))
    && (!x.phase.Lookup? && !x.phase.Start? && !x.phase.Done? ==> x.start <= now)
    && (forall h :: h in x.writes.used ==> h in t.magic && !t.magic[h].used)
    && (forall h :: h in x.writes.revoked ==> h in t.refresh && !t.refresh[h].revoked)
    && (x.call.Issue? && (x.phase.CreateLink? || x.phase.Commit?) ==> Cleared(t, x))
  }

  /** The call has generated a token that nobody has seen yet. */
  ghost predicate Minting(x: Txn) { x.phase.Commit? && (x.call.Issue? || x.call.Verify? || x.call.Rotate?) }

  ghost predicate Unseen(s: State, h: Hash) {
    h !in s.t.magic && h !in s.t.refresh && h !in s.chain && h !in s.chain.Values
  }

  ghost predicate FreshInv(s: State) {
    && s.t.magic.Keys <= s.known && s.t.refresh.Keys <= s.known && s.chain.Keys <= s.known && s.chain.Values <= s.known
    && (forall i :: i in s.txns && Minting(s.txns[i]) ==> s.txns[i].token in s.known && Unseen(s, s.txns[i].token))
    && (forall i, j :: i in s.txns && j in s.txns && i != j && Minting(s.txns[i]) && Minting(s.txns[j]) ==>
          s.txns[i].token != s.txns[j].token)
  }

  /** Advisory locks exclude each other, and so do row locks. */
  ghost predicate Apart(x: Txn, y: Txn) {
    && !(x.locked && y.locked && x.user == y.user)
    && x.writes.used !! y.writes.used && x.writes.revoked !! y.writes.revoked
  }

  ghost predicate LockInv(s: State) {
    forall i, j :: i in s.txns && j in s.txns && i != j ==> Apart(s.txns[i], s.txns[j])
  }

  ghost predicate OneLiveLink(t: Tables, now: Time) {
    forall g, h :: LiveLink(t, g, now) && LiveLink(t, h, now) && t.magic[g].user == t.magic[h].user ==> g == h
  }

  predicate Unrevoked(t: Tables, h: Hash) { h in t.refresh && !t.refresh[h].revoked }

  ghost predicate OneSessionPerChain(t: Tables, chain: map<Hash, Hash>) {
    && t.refresh.Keys <= chain.Keys
    && (forall g, h :: Unrevoked(t, g) && Unrevoked(t, h) && chain[g] == chain[h] ==> g == h)
    && (forall h :: h in chain && chain[h] in t.magic ==> t.magic[chain[h]].used)
  }

  ghost predicate Inv(s: State) {
    && LockInv(s) && FreshInv(s) && OneLiveLink(s.t, s.now) && OneSessionPerChain(s.t, s.chain)
    && (forall i :: i in s.txns ==> TxnInv(s.t, s.now, s.txns[i]))
  }

  // ---- Steps that commit nothing ----------------------------------------------------------------

  lemma AdvanceInv(cfg: Config, t: Tables, now: Time, x: Txn, given: Given)
    requires TxnInv(t, now, x) && !x.phase.Commit? && !x.phase.Done?
    ensures TxnInv(t, now, Advance(cfg, t, now, x, given))
  {
  }

  lemma AdvanceApart(cfg: Config, s: State, tid: nat, given: Given, j: nat)
    requires Enabled(s, Step(tid, given)) && TxnInv(s.t, s.now, s.txns[tid]) && !s.txns[tid].phase.Commit?
    requires j in s.txns && j != tid && Apart(s.txns[tid], s.txns[j])
    ensures Apart(Advance(cfg, s.t, s.now, s.txns[tid], given), s.txns[j])
  {
  }

  lemma AdvanceMints(cfg: Config, t: Tables, now: Time, x: Txn, given: Given)
    requires TxnInv(t, now, x) && !x.phase.Commit? && !x.phase.Done?
    ensures Minting(Advance(cfg, t, now, x, given)) ==> Advance(cfg, t, now, x, given).token == given.minted
  {
  }

  /** Transaction `tid` becomes `x'`; nothing is committed. */
  ghost predicate Moved(s: State, tid: nat, x': Txn, minted: Hash, s': State) {
    && s' == s.(txns := s.txns[tid := x'], known := s'.known)
    && s.known <= s'.known
    && TxnInv(s.t, s.now, x')
    && (forall j :: j in s.txns && j != tid ==> Apart(x', s.txns[j]))
    && (Minting(x') ==> x'.token == minted && minted !in s.known && minted in s'.known)
  }

  lemma MovedFresh(s: State, tid: nat, x': Txn, minted: Hash, s': State)
    requires FreshInv(s) && Moved(s, tid, x', minted, s')
    ensures FreshInv(s')
  {
    forall i | i in s'.txns && Minting(s'.txns[i])
      ensures s'.txns[i].token in s'.known && Unseen(s', s'.txns[i].token)
    {
      assert i != tid ==> s'.txns[i] == s.txns[i];
    }
  }

  lemma MovedKeepsInv(s: State, tid: nat, x': Txn, minted: Hash, s': State)
    requires Inv(s) && Moved(s, tid, x', minted, s')
    ensures Inv(s')
  {
    MovedFresh(s, tid, x', minted, s');
    forall i, j | i in s'.txns && j in s'.txns && i != j ensures Apart(s'.txns[i], s'.txns[j]) {
      assert i != tid && j != tid ==> Apart(s.txns[i], s.txns[j]);
    }
  }

  lemma StepMoves(cfg: Config, s: State, tid: nat, given: Given)
    requires Inv(s) && Enabled(s, Step(tid, given)) && !s.txns[tid].phase.Commit?
    ensures Moved(s, tid, Advance(cfg, s.t, s.now, s.txns[tid], given), given.minted, Next(cfg, s, Step(tid, given)))
  {
    AdvanceInv(cfg, s.t, s.now, s.txns[tid], given);
    AdvanceMints(cfg, s.t, s.now, s.txns[tid], given);
    forall j | j in s.txns && j != tid ensures Apart(Advance(cfg, s.t, s.now, s.txns[tid], given), s.txns[j]) {
      AdvanceApart(cfg, s, tid, given, j);
    }
  }

  lemma BeginMoves(s: State, tid: nat, call: Call, s': State)
    requires Inv(s) && tid !in s.txns && s' == s.(txns := s.txns[tid := Begun(call)])
    ensures Moved(s, tid, Begun(call), 0, s')
  {
  }

  lemma AbortMoves(s: State, tid: nat, s': State)
    requires Inv(s) && tid in s.txns && s' == s.(txns := s.txns[tid := End(s.txns[tid], Aborted)])
    ensures Moved(s, tid, End(s.txns[tid], Aborted), 0, s')
  {
  }

  // ---- Commits ----------------------------------------------------------------------------------

  lemma CommitKeepsOther(t: Tables, now: Time, x: Txn, y: Txn)
    requires TxnInv(t, now, x) && TxnInv(t, now, y) && Apart(x, y) && x.phase.Commit?
    requires Minting(x) ==> x.token !in t.magic && x.token !in t.refresh
    ensures TxnInv(Apply(t, x.writes), now, y)
  {
  }

  lemma CommitKeepsOneLink(t: Tables, now: Time, x: Txn)
    requires TxnInv(t, now, x) && x.phase.Commit? && OneLiveLink(t, now)
    requires Minting(x) ==> x.token !in t.magic
    ensures OneLiveLink(Apply(t, x.writes), now)
  {
    var t' := Apply(t, x.writes);
    forall g, h | LiveLink(t', g, now) && LiveLink(t', h, now) && t'.magic[g].user == t'.magic[h].user ensures g == h {
      if g !in x.writes.magic { assert LiveLink(t, g, now); }
      if h !in x.writes.magic { assert LiveLink(t, h, now); }
    }
  }

  lemma CommitKeepsChains(t: Tables, now: Time, chain: map<Hash, Hash>, x: Txn)
    requires TxnInv(t, now, x) && x.phase.Commit? && OneSessionPerChain(t, chain)
    requires Minting(x) ==> x.token !in chain && x.token !in chain.Values
    ensures var t', chain' := Apply(t, x.writes), ChainAfter(chain, x);
      && t'.refresh.Keys <= chain'.Keys
      && (forall h :: h in chain' && chain'[h] in t'.magic ==> t'.magic[chain'[h]].used)
  {
  }

  lemma CommitKeepsOneSession(t: Tables, now: Time, chain: map<Hash, Hash>, x: Txn)
    requires TxnInv(t, now, x) && x.phase.Commit? && OneSessionPerChain(t, chain)
    requires Minting(x) ==>
      x.token !in t.magic && x.token !in t.refresh && x.token !in chain && x.token !in chain.Values
    ensures OneSessionPerChain(Apply(t, x.writes), ChainAfter(chain, x))
  {
    var t', chain' := Apply(t, x.writes), ChainAfter(chain, x);
    CommitKeepsChains(t, now, chain, x);
    forall g, h | Unrevoked(t', g) && Unrevoked(t', h) && chain'[g] == chain'[h] ensures g == h {
      if g !in x.writes.refresh { assert Unrevoked(t, g); }
      if h !in x.writes.refresh { assert Unrevoked(t, h); }
    }
  }

  lemma CommitKeepsFresh(s: State, tid: nat)
    requires FreshInv(s) && tid in s.txns && TxnInv(s.t, s.now, s.txns[tid]) && s.txns[tid].phase.Commit?
    requires s.t.refresh.Keys <= s.chain.Keys
    ensures FreshInv(CommitTxn(s, tid))
  {
    var x, s' := s.txns[tid], CommitTxn(s, tid);
    assert s'.t.magic.Keys == s.t.magic.Keys + x.writes.magic.Keys;
    assert s'.t.refresh.Keys == s.t.refresh.Keys + x.writes.refresh.Keys;
    forall i | i in s'.txns && Minting(s'.txns[i])
      ensures s'.txns[i].token in s'.known && Unseen(s', s'.txns[i].token)
    {
      assert i != tid && s'.txns[i] == s.txns[i];
    }
  }

  lemma CommitKeepsLocks(s: State, tid: nat)
    requires LockInv(s) && tid in s.txns
    ensures LockInv(CommitTxn(s, tid))
  {
    var s' := CommitTxn(s, tid);
    forall i, j | i in s'.txns && j in s'.txns && i != j ensures Apart(s'.txns[i], s'.txns[j]) {
      assert Apart(s.txns[i], s.txns[j]);
    }
  }

  lemma CommitKeepsTxns(s: State, tid: nat)
    requires LockInv(s) && tid in s.txns && s.txns[tid].phase.Commit?
    requires forall i :: i in s.txns ==> TxnInv(s.t, s.now, s.txns[i])
    requires var x := s.txns[tid]; Minting(x) ==> x.token !in s.t.magic && x.token !in s.t.refresh
    ensures var s' := CommitTxn(s, tid); forall i :: i in s'.txns ==> TxnInv(s'.t, s'.now, s'.txns[i])
  {
    var s' := CommitTxn(s, tid);
    forall i | i in s'.txns ensures TxnInv(s'.t, s'.now, s'.txns[i]) {
      if i != tid { CommitKeepsOther(s.t, s.now, s.txns[tid], s.txns[i]); }
    }
  }

  lemma CommitKeepsInv(s: State, tid: nat)
    requires Inv(s) && tid in s.txns && s.txns[tid].phase.Commit?
    ensures Inv(CommitTxn(s, tid))
  {
    assert TxnInv(s.t, s.now, s.txns[tid]);
    CommitKeepsFresh(s, tid);
    CommitKeepsLocks(s, tid);
    CommitKeepsTxns(s, tid);
    CommitKeepsOneLink(s.t, s.now, s.txns[tid]);
    CommitKeepsOneSession(s.t, s.now, s.chain, s.txns[tid]);
  }

  lemma NextKeepsInv(cfg: Config, s: State, a: Action)
    requires Inv(s) && Enabled(s, a)
    ensures Inv(Next(cfg, s, a))
  {
    var s' := Next(cfg, s, a);
    match a
    case Begin(tid, call) =>
      BeginMoves(s, tid, call, s');
      MovedKeepsInv(s, tid, Begun(call), 0, s');
    case Abort(tid) =>
      AbortMoves(s, tid, s');
      MovedKeepsInv(s, tid, End(s.txns[tid], Aborted), 0, s');
    case Tick(later) => LaterKeepsInv(s, later);
    case Step(tid, given) =>
      if s.txns[tid].phase.Commit? {
        CommitKeepsInv(s, tid);
      } else {
        StepMoves(cfg, s, tid, given);
        MovedKeepsInv(s, tid, Advance(cfg, s.t, s.now, s.txns[tid], given), given.minted, s');
      }
  }

  lemma LaterKeepsInv(s: State, later: Time)
    requires Inv(s) && later >= s.now
    ensures Inv(s.(now := later))
  {
    forall g, h | LiveLink(s.t, g, later) && LiveLink(s.t, h, later) && s.t.magic[g].user == s.t.magic[h].user
      ensures g == h
    {
      assert LiveLink(s.t, g, s.now) && LiveLink(s.t, h, s.now);
    }
  }

  // ---- The history ------------------------------------------------------------------------------

  /** The sessions an event ends, and the one it starts or continues. */
  function Consumed(e: Event): set<Hash> {
    match e
    case Rotated(previous, _) => {previous}
    case Revoked(session) => {session}
    case RevokedAll(sessions) => sessions
    case _ => {}
  }

  function Created(e: Event): set<Hash> {
    if e.Verified? || e.Rotated? then {e.session} else {}
  }

  function UsedLink(e: Event): set<Hash> { if e.Verified? then {e.link} else {} }

  /** The marks that committed calls leave on the tables. */
  ghost predicate Marked(t: Tables, e: Event) {
    && (forall h :: h in UsedLink(e) ==> h in t.magic && t.magic[h].used)
    && (forall h :: h in Consumed(e) ==> h in t.refresh && t.refresh[h].revoked)
    && (forall h :: h in Created(e) ==> h in t.refresh)
  }

  /** A mark that is not on the tables yet. */
  ghost predicate Unmarked(t: Tables, e: Event) {
    && (forall h :: h in UsedLink(e) ==> h in t.magic && !t.magic[h].used)
    && (forall h :: h in Consumed(e) ==> Unrevoked(t, h))
    && (forall h :: h in Created(e) ==> h !in t.refresh)
  }

  ghost predicate Distinct(e: Event, f: Event) {
    UsedLink(e) !! UsedLink(f) && Consumed(e) !! Consumed(f) && Created(e) !! Created(f)
  }

  /** Every committed call left its mark on the tables, and no mark was made twice. */
  ghost predicate LogInv(t: Tables, log: seq<Event>) {
    && (forall k :: 0 <= k < |log| ==> Marked(t, log[k]))
    && (forall i, j :: 0 <= i < j < |log| ==> Distinct(log[i], log[j]))
  }

  lemma MarkedBeforeUnmarked(t: Tables, e: Event, f: Event)
    requires Marked(t, e) && Unmarked(t, f)
    ensures Distinct(e, f)
  {
  }

  /** Marks stay. */
  ghost predicate Grows(t: Tables, t': Tables) {
    && (forall h :: h in t.magic ==> h in t'.magic && (t.magic[h].used ==> t'.magic[h].used))
    && (forall h :: h in t.refresh ==> h in t'.refresh && (t.refresh[h].revoked ==> t'.refresh[h].revoked))
  }

  lemma CommitMarks(t: Tables, now: Time, x: Txn)
    requires TxnInv(t, now, x) && x.phase.Commit?
    requires Minting(x) ==> x.token !in t.magic && x.token !in t.refresh
    ensures Unmarked(t, EventOf(x)) && Marked(Apply(t, x.writes), EventOf(x)) && Grows(t, Apply(t, x.writes))
  {
  }

  lemma LogGrows(t: Tables, t': Tables, log: seq<Event>, e: Event)
    requires LogInv(t, log) && Unmarked(t, e) && Marked(t', e) && Grows(t, t')
    ensures LogInv(t', log + [e])
  {
    var log' := log + [e];
    forall i, j | 0 <= i < j < |log'| ensures Distinct(log'[i], log'[j]) {
      if j == |log| { MarkedBeforeUnmarked(t, log[i], e); }
    }
  }

  lemma CommitKeepsLog(s: State, tid: nat)
    requires tid in s.txns && TxnInv(s.t, s.now, s.txns[tid]) && s.txns[tid].phase.Commit? && LogInv(s.t, s.log)
    requires var x := s.txns[tid]; Minting(x) ==> x.token !in s.t.magic && x.token !in s.t.refresh
    ensures LogInv(CommitTxn(s, tid).t, CommitTxn(s, tid).log)
  {
    CommitMarks(s.t, s.now, s.txns[tid]);
    LogGrows(s.t, Apply(s.t, s.txns[tid].writes), s.log, EventOf(s.txns[tid]));
  }

  // ---- Conservation -----------------------------------------------------------------------------

  function Sessions(t: Tables): set<Hash> { set h | h in t.refresh && Unrevoked(t, h) }

  /** Sessions started less sessions ended by the calls of a history; a rotation does neither. */
  function Started(log: seq<Event>): int
  {
    if log == [] then 0
    else
      var e := log[|log| - 1];
      Started(log[..|log| - 1]) + match e
        case Verified(_, _) => 1
        case Revoked(_) => -1
        case RevokedAll(sessions) => -|sessions|
        case _ => 0
  }

  function Pairs(log: seq<Event>): nat
  {
    if log == [] then 0
    else Pairs(log[..|log| - 1]) + if log[|log| - 1].Verified? || log[|log| - 1].Rotated? then 1 else 0
  }

  ghost predicate Conserved(from: State, s: State) {
    && |Sessions(s.t)| - Started(s.log) == |Sessions(from.t)| - Started(from.log)
    && |s.t.refresh.Keys| - Pairs(s.log) == |from.t.refresh.Keys| - Pairs(from.log)
  }

  lemma SizeAfter<T>(before: set<T>, removed: set<T>, added: set<T>)
    requires removed <= before && added !! before
    ensures |(before - removed) + added| == |before| - |removed| + |added|
  {
    assert before == (before - removed) + removed;
    assert |before| == |before - removed| + |removed|;
  }

  lemma CommitSessions(t: Tables, now: Time, x: Txn)
    requires TxnInv(t, now, x) && x.phase.Commit?
    requires Minting(x) ==> x.token !in t.magic && x.token !in t.refresh
    ensures Sessions(Apply(t, x.writes)) == (Sessions(t) - Consumed(EventOf(x))) + Created(EventOf(x))
    ensures Consumed(EventOf(x)) <= Sessions(t) && Created(EventOf(x)) !! t.refresh.Keys
    ensures Apply(t, x.writes).refresh.Keys == (t.refresh.Keys - {}) + Created(EventOf(x))
  {
  }

  lemma HistoryAfter(log: seq<Event>, e: Event)
    ensures Started(log + [e]) == Started(log) + |Created(e)| - |Consumed(e)|
    ensures Pairs(log + [e]) == Pairs(log) + |Created(e)|
  {
    assert (log + [e])[..|log|] == log;
  }

  lemma CommitConserves(from: State, s: State, tid: nat)
    requires tid in s.txns && TxnInv(s.t, s.now, s.txns[tid]) && s.txns[tid].phase.Commit? && Conserved(from, s)
    requires var x := s.txns[tid]; Minting(x) ==> x.token !in s.t.magic && x.token !in s.t.refresh
    ensures Conserved(from, CommitTxn(s, tid))
  {
    var x := s.txns[tid];
    var e := EventOf(x);
    CommitSessions(s.t, s.now, x);
    SizeAfter(Sessions(s.t), Consumed(e), Created(e));
    SizeAfter(s.t.refresh.Keys, {}, Created(e));
    HistoryAfter(s.log, e);
  }

  lemma {:induction false} RunKeepsAll(cfg: Config, from: State, s: State, actions: seq<Action>)
    requires Inv(s) && LogInv(s.t, s.log) && Conserved(from, s)
    ensures var s' := Run(cfg, s, actions); Inv(s') && LogInv(s'.t, s'.log) && Conserved(from, s')
    decreases |actions|
  {
    if actions != [] {
      var a := actions[0];
      if Enabled(s, a) {
        NextKeepsInv(cfg, s, a);
        if a.Step? && s.txns[a.tid].phase.Commit? {
          assert TxnInv(s.t, s.now, s.txns[a.tid]);
          CommitKeepsLog(s, a.tid);
          CommitConserves(from, s, a.tid);
        }
        RunKeepsAll(cfg, from, Next(cfg, s, a), actions[1..]);
      } else {
        RunKeepsAll(cfg, from, s, actions[1..]);
      }
    }
  }

  /** A start: no call in flight and no history; every stored session belongs to a chain of its own. */
  ghost predicate Initial(s: State) {
    && s.txns == map[] && s.log == [] && OneLiveLink(s.t, s.now) && OneSessionPerChain(s.t, s.chain)
    && s.t.magic.Keys <= s.known && s.t.refresh.Keys <= s.known && s.chain.Keys <= s.known && s.chain.Values <= s.known
  }

  /** In every reachable state, no user has two links that could still be redeemed. */
  lemma AtMostOneLiveLink(cfg: Config, s: State, actions: seq<Action>, g: Hash, h: Hash)
    requires Initial(s)
    requires var s' := Run(cfg, s, actions);
      LiveLink(s'.t, g, s'.now) && LiveLink(s'.t, h, s'.now) && s'.t.magic[g].user == s'.t.magic[h].user
    ensures g == h
  {
    RunKeepsAll(cfg, s, s, actions);
  }

  /** Over a whole run, a link yields at most one token pair, and a session is rotated or revoked at
      most once, by whichever call commits first. */
  lemma EverythingIsUsedOnce(cfg: Config, s: State, actions: seq<Action>, i: nat, j: nat)
    requires Initial(s) && i < j < |Run(cfg, s, actions).log|
    ensures var log := Run(cfg, s, actions).log;
      && (log[i].Verified? && log[j].Verified? ==> log[i].link != log[j].link && log[i].session != log[j].session)
      && Consumed(log[i]) !! Consumed(log[j])
  {
    RunKeepsAll(cfg, s, s, actions);
    var log := Run(cfg, s, actions).log;
    assert Distinct(log[i], log[j]);
    if log[i].Verified? && log[j].Verified? {
      assert log[i].link in UsedLink(log[i]) && log[i].session in Created(log[i]);
    }
  }

  /** Refresh tokens are conserved: in every reachable state each chain has at most one unrevoked token;
      the tokens stored are those at the start plus one for each pair handed out; the sessions alive are
      those at the start plus the links redeemed less the sessions revoked. */
  lemma SessionsAreConserved(cfg: Config, s: State, actions: seq<Action>)
    requires Initial(s)
    ensures var s' := Run(cfg, s, actions);
      && |s'.t.refresh.Keys| == |s.t.refresh.Keys| + Pairs(s'.log)
      && |Sessions(s'.t)| == |Sessions(s.t)| + Started(s'.log)
      && (forall g, h :: Unrevoked(s'.t, g) && Unrevoked(s'.t, h) && g in s'.chain && h in s'.chain ==>
            s'.chain[g] != s'.chain[h] || g == h)
      && s'.t.refresh.Keys <= s'.chain.Keys
  {
    RunKeepsAll(cfg, s, s, actions);
  }

  /** A call that has not committed, or has failed, has changed nothing: only a commit moves the tables. */
  lemma OnlyCommitsChangeTables(cfg: Config, s: State, a: Action)
    requires Enabled(s, a) && Next(cfg, s, a).t != s.t
    ensures a.Step? && s.txns[a.tid].phase.Commit?
    ensures Next(cfg, s, a).txns[a.tid].phase == Done(Completed)
      && Next(cfg, s, a).log == s.log + [EventOf(s.txns[a.tid])]
  {
  }

  // ---- A call that nothing disturbs -------------------------------------------------------------

  function Advances(cfg: Config, t: Tables, now: Time, x: Txn, given: Given, n: nat): Txn
    decreases n
  {
    if n == 0 then x else Advances(cfg, t, now, Advance(cfg, t, now, x, given), given, n - 1)
  }

  lemma TwoAdvances(cfg: Config, t: Tables, now: Time, x: Txn, given: Given, n: nat)
    ensures Advances(cfg, t, now, x, given, n + 2) ==
            Advances(cfg, t, now, Advance(cfg, t, now, Advance(cfg, t, now, x, given), given), given, n)
  {
  }

  lemma {:induction false} SettledStays(cfg: Config, t: Tables, now: Time, x: Txn, given: Given, n: nat)
    requires x.phase.Commit? || x.phase.Done?
    ensures Advances(cfg, t, now, x, given, n) == x
    decreases n
  {
    if n > 0 { SettledStays(cfg, t, now, x, given, n - 1); }
  }

  /** The rows of the scan are revoked one after the other. */
  lemma {:induction false} AloneRevokes(cfg: Config, t: Tables, now: Time, x: Txn, given: Given, n: nat)
    requires x.phase.RevokeSessions? && n > |x.queue|
    ensures Advances(cfg, t, now, x, given, n) == x.(phase := Commit, queue := [],
      writes := x.writes.(revoked := x.writes.revoked + set h | h in x.queue && h in UnrevokedOf(t, x.user)))
    decreases |x.queue|
  {
    var x' := Advance(cfg, t, now, x, given);
    if x.queue == [] {
      SettledStays(cfg, t, now, x', given, n - 1);
      assert x.writes.revoked + (set h | h in x.queue && h in UnrevokedOf(t, x.user)) == x.writes.revoked;
    } else {
      AloneRevokes(cfg, t, now, x', given, n - 1);
      assert x'.writes.revoked + (set h | h in x'.queue && h in UnrevokedOf(t, x.user)) ==
        x.writes.revoked + (set h | h in x.queue && h in UnrevokedOf(t, x.user));
    }
  }

  lemma RevokeAllAlone(cfg: Config, t: Tables, now: Time, u: UserId, given: Given, n: nat)
    requires Lists(given.order, UnrevokedOf(t, u)) && n > |given.order|
    ensures var x := Advances(cfg, t, now, Begun(RevokeAll(u)), given, n + 2);
      x.phase == Commit && x.writes == CallWrites(cfg, t, RevokeAll(u), now, given.minted).0
  {
    var x2 := Advance(cfg, t, now, Advance(cfg, t, now, Begun(RevokeAll(u)), given), given);
    TwoAdvances(cfg, t, now, Begun(RevokeAll(u)), given, n);
    AloneRevokes(cfg, t, now, x2, given, n);
    assert {} + (set h | h in given.order && h in UnrevokedOf(t, u)) == UnrevokedOf(t, u);
  }

  /** Run alone in one instant, the step program of a call settles on the writes and the outcome of the atomic
      call: within six steps, or one for each session it revokes and three more. */
  lemma AloneIsAtomic(cfg: Config, t: Tables, now: Time, call: Call, given: Given)
    requires call.RevokeAll? ==> Lists(given.order, UnrevokedOf(t, call.user))
    ensures var x := Advances(cfg, t, now, Begun(call), given, if call.RevokeAll? then |given.order| + 3 else 6);
      var (writes, outcome) := CallWrites(cfg, t, call, now, given.minted);
      x.phase == (if outcome == Completed then Commit else Done(outcome)) && x.writes == writes
  {
    if call.RevokeAll? {
      RevokeAllAlone(cfg, t, now, call.user, given, |given.order| + 1);
    } else {
      var x2 := Advance(cfg, t, now, Advance(cfg, t, now, Begun(call), given), given);
      var x4 := Advance(cfg, t, now, Advance(cfg, t, now, x2, given), given);
      TwoAdvances(cfg, t, now, Begun(call), given, 4);
      TwoAdvances(cfg, t, now, x2, given, 2);
      TwoAdvances(cfg, t, now, x4, given, 0);
    }
  }
}
