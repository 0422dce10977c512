/** What the history of a run of concurrent token calls says about the tables: how close together links are
    issued, whose address is verified, and which sessions a revocation of all sessions reaches. */
module AuthHistory {
  import opened Permissions
  import opened AuthTables
  import opened AuthProtocol
  import opened AuthInvariants
  import AuthTime

  // ---- What a transaction has established -----------------------------------------------------------

  /** The rate check still stands: it was this far from every link that the user has. */
  ghost predicate Spaced(cfg: Config, t: Tables, x: Txn) {
    cfg.rateLimit > 0 ==>
      forall h :: h in t.magic && t.magic[h].user == x.user ==> x.checked - t.magic[h].created >= cfg.rateLimit
  }

  /** The statement of RevokeAll has found every session that was there when it began. */
  ghost predicate FoundAll(t: Tables, x: Txn) {
    && x.seen <= t.refresh.Keys
    && (forall h :: h in x.seen && h in UnrevokedOf(t, x.user) ==> h in x.writes.revoked || h in x.queue)
    && (x.phase.Commit? ==> x.queue == [])
    && x.writes.revoked <= x.seen && forall h :: h in x.queue ==> h in x.seen
  }

  ghost predicate TxnHistory(cfg: Config, t: Tables, now: Time, x: Txn) {
    && (x.call.Issue? || x.call.RevokeAll? ==> x.user == x.call.user)
    && (x.call.Issue? && (x.phase.Invalidate? || x.phase.CreateLink? || x.phase.Commit?) ==>
          x.start <= x.checked <= now && Spaced(cfg, t, x))
    && (x.call.Issue? && x.phase.Commit? ==> x.token in x.writes.magic && x.writes.magic[x.token].created == x.start)
    && (x.call.Verify? && !x.phase.Lookup? && !x.phase.Done? ==>
        x.call.hash in t.magic && t.magic[x.call.hash].user == x.user)
    && (x.call.RevokeAll? ==> forall h :: h in x.writes.revoked ==> h in t.refresh && t.refresh[h].user == x.user)
    && (x.call.RevokeAll? && (x.phase.RevokeSessions? || x.phase.Commit?) ==> FoundAll(t, x))
  }

  lemma AdvanceHistory(cfg: Config, t: Tables, now: Time, x: Txn, given: Given)
    requires TxnInv(t, now, x) && TxnHistory(cfg, t, now, x) && !x.phase.Commit? && !x.phase.Done?
    requires x.phase.FindSessions? ==> Lists(given.order, UnrevokedOf(t, x.user))
    ensures TxnHistory(cfg, t, now, Advance(cfg, t, now, x, given))
  {
    if x.phase.FindSessions? {
      forall h ensures h in given.order <==> h in UnrevokedOf(t, x.user) {
        assert h in (set g | g in given.order) <==> h in given.order;
      }
    } else if x.phase.RevokeSessions? && x.queue != [] {
      assert forall h :: h in x.queue <==> h == x.queue[0] || h in x.queue[1..];
    }
  }

  lemma CommitKeepsHistory(cfg: Config, t: Tables, now: Time, x: Txn, y: Txn)
    requires TxnInv(t, now, x) && TxnInv(t, now, y) && x.phase.Commit? && Apart(x, y)
    requires TxnHistory(cfg, t, now, x) && TxnHistory(cfg, t, now, y)
    requires Minting(x) ==> x.token !in t.magic && x.token !in t.refresh
    ensures TxnHistory(cfg, Apply(t, x.writes), now, y)
  {
  }

  // ---- What the log says -------------------------------------------------------------------------------

  /** Each issuance in the log is the creation of its link, and its check was in time. */
  ghost predicate IssuesAgree(cfg: Config, t: Tables, log: seq<Event>) {
    && (forall k :: 0 <= k < |log| && log[k].Issued? ==>
          var e := log[k];
          && e.link in t.magic && t.magic[e.link].user == e.user && t.magic[e.link].created == e.start
          && e.start <= e.checked)
    && (cfg.rateLimit > 0 ==>
          forall i, j :: 0 <= i < j < |log| && log[i].Issued? && log[j].Issued? && log[i].user == log[j].user ==>
            log[j].checked - log[i].start >= cfg.rateLimit)
  }

  /** The users verified since the start are the owners of the links redeemed. */
  ghost predicate VerifiedAgree(from: Tables, t: Tables, log: seq<Event>) {
    && (forall k :: 0 <= k < |log| && log[k].Verified? ==> log[k].link in t.magic)
    && (forall u :: u in t.verified <==>
          u in from.verified || exists k :: 0 <= k < |log| && log[k].Verified? && t.magic[log[k].link].user == u)
  }

  ghost predicate HistoryInv(cfg: Config, from: Tables, s: State) {
    && IssuesAgree(cfg, s.t, s.log) && VerifiedAgree(from, s.t, s.log)
    && (forall i :: i in s.txns ==> TxnHistory(cfg, s.t, s.now, s.txns[i]))
  }

  /** Links keep owner and creation time. */
  lemma CommitKeepsLinks(t: Tables, now: Time, x: Txn, h: Hash)
    requires TxnInv(t, now, x) && x.phase.Commit? && h in t.magic && (Minting(x) ==> x.token !in t.magic)
    ensures var t' := Apply(t, x.writes);
      h in t'.magic && t'.magic[h].user == t.magic[h].user && t'.magic[h].created == t.magic[h].created
  {
  }

  lemma CommitKeepsIssues(cfg: Config, t: Tables, now: Time, x: Txn, log: seq<Event>)
    requires TxnInv(t, now, x) && TxnHistory(cfg, t, now, x) && x.phase.Commit? && IssuesAgree(cfg, t, log)
    requires Minting(x) ==> x.token !in t.magic
    ensures IssuesAgree(cfg, Apply(t, x.writes), log + [EventOf(x)])
  {
    var t', log' := Apply(t, x.writes), log + [EventOf(x)];
    forall k | 0 <= k < |log| && log[k].Issued?
      ensures log'[k].link in t'.magic && t'.magic[log'[k].link].user == log'[k].user
      ensures t'.magic[log'[k].link].created == log'[k].start
    {
      CommitKeepsLinks(t, now, x, log[k].link);
    }
  }

  lemma CommitKeepsVerified(cfg: Config, from: Tables, t: Tables, now: Time, x: Txn, log: seq<Event>)
    requires TxnInv(t, now, x) && TxnHistory(cfg, t, now, x) && x.phase.Commit? && VerifiedAgree(from, t, log)
    requires Minting(x) ==> x.token !in t.magic
    ensures VerifiedAgree(from, Apply(t, x.writes), log + [EventOf(x)])
  {
    var t', log' := Apply(t, x.writes), log + [EventOf(x)];
    forall k | 0 <= k < |log| && log[k].Verified?
      ensures log'[k] == log[k] && log'[k].link in t'.magic && t'.magic[log'[k].link].user == t.magic[log[k].link].user
    {
      CommitKeepsLinks(t, now, x, log[k].link);
    }
    if x.call.Verify? {
      CommitKeepsLinks(t, now, x, x.call.hash);
      assert log'[|log|] == EventOf(x);
    }
    forall u ensures u in t'.verified <==>
      u in from.verified || exists k :: 0 <= k < |log'| && log'[k].Verified? && t'.magic[log'[k].link].user == u
    {
      if k :| 0 <= k < |log| && log[k].Verified? && t.magic[log[k].link].user == u {
        assert log'[k].Verified? && t'.magic[log'[k].link].user == u;
      }
    }
  }

  lemma CommitKeepsHistoryInv(cfg: Config, from: Tables, s: State, tid: nat)
    requires Inv(s) && HistoryInv(cfg, from, s) && tid in s.txns && s.txns[tid].phase.Commit?
    ensures HistoryInv(cfg, from, CommitTxn(s, tid))
  {
    var x, s' := s.txns[tid], CommitTxn(s, tid);
    assert TxnInv(s.t, s.now, x) && TxnHistory(cfg, s.t, s.now, x);
    CommitKeepsIssues(cfg, s.t, s.now, x, s.log);
    CommitKeepsVerified(cfg, from, s.t, s.now, x, s.log);
    forall i | i in s'.txns ensures TxnHistory(cfg, s'.t, s'.now, s'.txns[i]) {
      if i != tid { CommitKeepsHistory(cfg, s.t, s.now, x, s.txns[i]); }
    }
  }

  lemma NextKeepsHistory(cfg: Config, from: Tables, s: State, a: Action)
    requires Inv(s) && HistoryInv(cfg, from, s) && Enabled(s, a)
    ensures HistoryInv(cfg, from, Next(cfg, s, a))
  {
    var s' := Next(cfg, s, a);
    if a.Step? && s.txns[a.tid].phase.Commit? {
      CommitKeepsHistoryInv(cfg, from, s, a.tid);
    } else {
      if a.Step? {
        assert TxnInv(s.t, s.now, s.txns[a.tid]);
        AdvanceHistory(cfg, s.t, s.now, s.txns[a.tid], a.given);
      }
      forall i | i in s'.txns ensures TxnHistory(cfg, s'.t, s'.now, s'.txns[i]) {
        if i in s.txns { assert TxnHistory(cfg, s.t, s.now, s.txns[i]); }
      }
    }
  }

  lemma {:induction false} RunKeepsHistory(cfg: Config, from: Tables, s: State, actions: seq<Action>)
    requires Inv(s) && HistoryInv(cfg, from, s)
    ensures Inv(Run(cfg, s, actions)) && HistoryInv(cfg, from, Run(cfg, s, actions))
    decreases |actions|
  {
    if actions != [] {
      if Enabled(s, actions[0]) {
        NextKeepsInv(cfg, s, actions[0]);
        NextKeepsHistory(cfg, from, s, actions[0]);
        RunKeepsHistory(cfg, from, Next(cfg, s, actions[0]), actions[1..]);
      } else {
        RunKeepsHistory(cfg, from, s, actions[1..]);
      }
    }
  }

  // ---- Issuances ---------------------------------------------------------------------------------------

  /** The creation times of two links of one user are apart by the rate limit less the time that the later
      call spent between its beginning, which dates its link, and its check: the wait for the user lock. */
  lemma IssuancesKeepDistance(cfg: Config, s: State, actions: seq<Action>, i: nat, j: nat)
    requires Initial(s) && cfg.rateLimit > 0
    requires var log := Run(cfg, s, actions).log;
      i < j < |log| && log[i].Issued? && log[j].Issued? && log[i].user == log[j].user
    ensures var s' := Run(cfg, s, actions);
      var e, f := s'.log[i], s'.log[j];
      && e.link in s'.t.magic && f.link in s'.t.magic
      && s'.t.magic[f.link].created - s'.t.magic[e.link].created >= cfg.rateLimit - (f.checked - f.start)
      && f.checked - f.start >= 0
  {
    RunKeepsHistory(cfg, s.t, s, actions);
  }

  /** When links were issued to `u`, in the order of the commits. */
  function IssueStarts(log: seq<Event>, u: UserId): seq<Time> {
    if log == [] then []
    else (if log[0].Issued? && log[0].user == u then [log[0].start] else []) + IssueStarts(log[1..], u)
  }

  lemma {:induction false} FirstStart(log: seq<Event>, u: UserId, last: Time, gap: Time)
    requires forall j :: 0 <= j < |log| && log[j].Issued? && log[j].user == u ==> log[j].start - last >= gap
    ensures IssueStarts(log, u) != [] ==> IssueStarts(log, u)[0] - last >= gap
  {
    if log != [] && !(log[0].Issued? && log[0].user == u) { FirstStart(log[1..], u, last, gap); }
  }

  lemma {:induction false} StartsAreSpaced(log: seq<Event>, u: UserId, gap: Time, k: nat)
    requires forall i, j ::
               0 <= i < j < |log| && log[i].Issued? && log[j].Issued? && log[i].user == u && log[j].user == u ==>
               log[j].start - log[i].start >= gap
    requires k + 1 < |IssueStarts(log, u)|
    ensures IssueStarts(log, u)[k + 1] - IssueStarts(log, u)[k] >= gap
  {
    var counted := log[0].Issued? && log[0].user == u;
    if counted && k == 0 {
      FirstStart(log[1..], u, log[0].start, gap);
    } else {
      StartsAreSpaced(log[1..], u, gap, if counted then k - 1 else k);
    }
  }

  /** If no call waits longer than `wait` for the user lock, any window of length W contains at most
      W / (L - wait) + 1 creations of links for one user, over every interleaving. */
  lemma RateLimitBoundsWindows(cfg: Config, s: State, actions: seq<Action>, u: UserId, wait: nat, window: nat, i: nat,
                               j: nat)
    requires Initial(s) && cfg.rateLimit > wait
    requires var log := Run(cfg, s, actions).log;
      && (forall k :: 0 <= k < |log| && log[k].Issued? ==> log[k].checked - log[k].start <= wait)
      && i <= j < |IssueStarts(log, u)| && IssueStarts(log, u)[j] - IssueStarts(log, u)[i] <= window
    ensures j - i + 1 <= window / (cfg.rateLimit - wait) + 1
  {
    RunKeepsHistory(cfg, s.t, s, actions);
    var log := Run(cfg, s, actions).log;
    var starts, gap := IssueStarts(log, u), cfg.rateLimit - wait;
    forall k | 0 <= k && k + 1 < |starts| ensures starts[k + 1] - starts[k] >= gap {
      StartsAreSpaced(log, u, gap, k);
    }
    AuthTime.SpacedOut(starts, gap, i, j);
    AuthTime.DivideBound(j - i, gap, window);
  }

  // ---- Refusals ------------------------------------------------------------------------------------------

  /** In every reachable state, whatever anybody else is doing: the rate check refuses a call exactly when the
      limit is positive and a link of that very user is younger; otherwise the call goes on to issue. */
  lemma RefusedExactlyForOwnLinks(cfg: Config, s: State, actions: seq<Action>, tid: nat, given: Given)
    requires Initial(s)
    requires var s' := Run(cfg, s, actions);
      tid in s'.txns && s'.txns[tid].phase.CheckRate? && Enabled(s', Step(tid, given))
    ensures var s' := Run(cfg, s, actions);
      var x := s'.txns[tid];
      var after := Next(cfg, s', Step(tid, given)).txns[tid];
      && x.call.Issue?
      && (after.phase == Done(TooMany) <==>
            cfg.rateLimit > 0 && exists h ::
              h in s'.t.magic && s'.t.magic[h].user == x.call.user && s'.now - s'.t.magic[h].created < cfg.rateLimit)
      && (after.phase == Done(TooMany) || after.phase == Invalidate)
  {
    RunKeepsHistory(cfg, s.t, s, actions);
    var s' := Run(cfg, s, actions);
    assert TxnInv(s'.t, s'.now, s'.txns[tid]) && TxnHistory(cfg, s'.t, s'.now, s'.txns[tid]);
  }

  /** A call was refused only for a link of its own user, and the limit is positive. */
  ghost predicate RefusedForOwnLink(cfg: Config, t: Tables, x: Txn) {
    x.phase == Done(TooMany) ==>
      x.call.Issue? && cfg.rateLimit > 0 && exists h :: h in t.magic && t.magic[h].user == x.call.user
  }

  ghost predicate Refusals(cfg: Config, s: State) {
    forall i :: i in s.txns ==> RefusedForOwnLink(cfg, s.t, s.txns[i])
  }

  lemma AdvanceRefuses(cfg: Config, t: Tables, now: Time, x: Txn, given: Given)
    requires TxnInv(t, now, x) && TxnHistory(cfg, t, now, x) && !x.phase.Commit? && !x.phase.Done?
    ensures RefusedForOwnLink(cfg, t, Advance(cfg, t, now, x, given))
  {
  }

  lemma CommitKeepsRefusal(cfg: Config, t: Tables, now: Time, x: Txn, y: Txn)
    requires TxnInv(t, now, x) && x.phase.Commit? && RefusedForOwnLink(cfg, t, y)
    requires Minting(x) ==> x.token !in t.magic
    ensures RefusedForOwnLink(cfg, Apply(t, x.writes), y)
  {
    if y.phase == Done(TooMany) {
      var h :| h in t.magic && t.magic[h].user == y.call.user;
      CommitKeepsLinks(t, now, x, h);
    }
  }

  lemma NextKeepsRefusals(cfg: Config, from: Tables, s: State, a: Action)
    requires Inv(s) && HistoryInv(cfg, from, s) && Enabled(s, a)
    requires Refusals(cfg, s)
    ensures Refusals(cfg, Next(cfg, s, a))
  {
    var s' := Next(cfg, s, a);
    if a.Step? { assert TxnInv(s.t, s.now, s.txns[a.tid]) && TxnHistory(cfg, s.t, s.now, s.txns[a.tid]); }
    forall i | i in s'.txns ensures RefusedForOwnLink(cfg, s'.t, s'.txns[i]) {
      if a.Step? && s.txns[a.tid].phase.Commit? {
        if i != a.tid { CommitKeepsRefusal(cfg, s.t, s.now, s.txns[a.tid], s.txns[i]); }
      } else if a.Step? && i == a.tid {
        AdvanceRefuses(cfg, s.t, s.now, s.txns[i], a.given);
      }
    }
  }

  lemma {:induction false} RunKeepsRefusals(cfg: Config, from: Tables, s: State, actions: seq<Action>)
    requires Inv(s) && HistoryInv(cfg, from, s) && Refusals(cfg, s)
    ensures Refusals(cfg, Run(cfg, s, actions))
    decreases |actions|
  {
    if actions != [] {
      if Enabled(s, actions[0]) {
        NextKeepsInv(cfg, s, actions[0]);
        NextKeepsHistory(cfg, from, s, actions[0]);
        NextKeepsRefusals(cfg, from, s, actions[0]);
        RunKeepsRefusals(cfg, from, Next(cfg, s, actions[0]), actions[1..]);
      } else {
        RunKeepsRefusals(cfg, from, s, actions[1..]);
      }
    }
  }

  /** Over every run: links of other users never cause a refusal. Without a link of one's own, or without a
      limit, nobody is ever told to wait. */
  lemma OthersNeverCauseRefusal(cfg: Config, s: State, actions: seq<Action>, i: nat)
    requires Initial(s)
    requires var s' := Run(cfg, s, actions);
      i in s'.txns && s'.txns[i].phase == Done(TooMany)
    ensures var s' := Run(cfg, s, actions);
      && s'.txns[i].call.Issue? && cfg.rateLimit > 0
      && exists h :: h in s'.t.magic && s'.t.magic[h].user == s'.txns[i].call.user
  {
    RunKeepsRefusals(cfg, s.t, s, actions);
    assert RefusedForOwnLink(cfg, Run(cfg, s, actions).t, Run(cfg, s, actions).txns[i]);
  }

  // ---- Verified addresses --------------------------------------------------------------------------------

  /** In every reachable state a user's address is verified exactly if it was at the start or one of the
      user's links has been redeemed. */
  lemma VerifiedMeansRedeemed(cfg: Config, s: State, actions: seq<Action>, u: UserId)
    requires Initial(s)
    ensures var s' := Run(cfg, s, actions);
      && (forall k :: 0 <= k < |s'.log| && s'.log[k].Verified? ==> s'.log[k].link in s'.t.magic)
      && (u in s'.t.verified <==>
            u in s.t.verified
            || exists k :: 0 <= k < |s'.log| && s'.log[k].Verified? && s'.t.magic[s'.log[k].link].user == u)
  {
    RunKeepsHistory(cfg, s.t, s, actions);
  }

  // ---- Revoking every session ------------------------------------------------------------------------------

  lemma CommitRevokes(t: Tables, now: Time, x: Txn, h: Hash)
    requires TxnInv(t, now, x) && FoundAll(t, x) && x.call.RevokeAll? && x.phase.Commit? && x.user == x.call.user
    ensures h in UnrevokedOf(Apply(t, x.writes), x.call.user) <==> h in UnrevokedOf(t, x.call.user) && h !in x.seen
  {
  }

  /** RevokeAll takes no user lock. Whatever runs beside it, its commit ends exactly the sessions of the user
      that were there when its statement began; those that survive were committed after that. */
  lemma RevokeAllReachesWhatItSaw(cfg: Config, s: State, actions: seq<Action>, tid: nat, h: Hash)
    requires Initial(s)
    requires var s' := Run(cfg, s, actions);
      tid in s'.txns && s'.txns[tid].call.RevokeAll? && s'.txns[tid].phase.Commit?
    ensures var s' := Run(cfg, s, actions);
      var x := s'.txns[tid];
      h in UnrevokedOf(CommitTxn(s', tid).t, x.call.user) <==> h in UnrevokedOf(s'.t, x.call.user) && h !in x.seen
  {
    RunKeepsHistory(cfg, s.t, s, actions);
    SurvivorsWereUnseen(cfg, s.t, Run(cfg, s, actions), tid, h);
  }

  lemma SurvivorsWereUnseen(cfg: Config, from: Tables, s: State, tid: nat, h: Hash)
    requires Inv(s) && HistoryInv(cfg, from, s)
    requires tid in s.txns && s.txns[tid].call.RevokeAll? && s.txns[tid].phase.Commit?
    ensures var x := s.txns[tid];
      h in UnrevokedOf(CommitTxn(s, tid).t, x.call.user) <==> h in UnrevokedOf(s.t, x.call.user) && h !in x.seen
  {
    assert TxnInv(s.t, s.now, s.txns[tid]) && TxnHistory(cfg, s.t, s.now, s.txns[tid]);
    CommitRevokes(s.t, s.now, s.txns[tid], h);
  }
}
