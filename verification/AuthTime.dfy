/** Rate limit and session lifetime over runs of any length, one call at an instant on one clock. */
module AuthTime {
  import opened Permissions
  import opened AuthTables

  datatype Timed = Timed(call: Call, now: Time, minted: Hash)

  function Replay(cfg: Config, t: Tables, calls: seq<Timed>): Tables
    decreases |calls|
  {
    if calls == [] then t
    else Replay(cfg, AtomicCall(cfg, t, calls[0].call, calls[0].now, calls[0].minted), calls[1..])
  }

  /** When links were issued to `u`, oldest first. */
  function IssueTimes(cfg: Config, t: Tables, calls: seq<Timed>, u: UserId): seq<Time>
    decreases |calls|
  {
    if calls == [] then []
    else
      var c := calls[0];
      (if IssuesTo(cfg, t, c, u) then [c.now] else [])
      + IssueTimes(cfg, AtomicCall(cfg, t, c.call, c.now, c.minted), calls[1..], u)
  }

  /** Generated digests are new. */
  ghost predicate Minted(t: Tables, calls: seq<Timed>) {
    && (forall i :: 0 <= i < |calls| ==> calls[i].minted !in t.magic && calls[i].minted !in t.refresh)
    && (forall i, j :: 0 <= i < j < |calls| ==> calls[i].minted != calls[j].minted)
  }

  // ---- Rate limit -------------------------------------------------------------------------------

  /** No call removes a link or changes its owner or creation time. */
  lemma LinksStay(cfg: Config, t: Tables, c: Timed, h: Hash)
    requires h in t.magic && c.minted !in t.magic
    ensures var t' := AtomicCall(cfg, t, c.call, c.now, c.minted);
      h in t'.magic && t'.magic[h].user == t.magic[h].user && t'.magic[h].created == t.magic[h].created
  {
  }

  lemma MintedAfter(cfg: Config, t: Tables, calls: seq<Timed>)
    requires calls != [] && Minted(t, calls)
    ensures Minted(AtomicCall(cfg, t, calls[0].call, calls[0].now, calls[0].minted), calls[1..])
  {
    var t' := AtomicCall(cfg, t, calls[0].call, calls[0].now, calls[0].minted);
    assert t'.magic.Keys <= t.magic.Keys + {calls[0].minted};
    assert t'.refresh.Keys <= t.refresh.Keys + {calls[0].minted};
    forall i | 0 <= i < |calls[1..]| ensures calls[1..][i].minted !in t'.magic && calls[1..][i].minted !in t'.refresh {
      assert calls[1..][i] == calls[i + 1];
    }
  }

  /** The call issues a link to `u`. */
  predicate IssuesTo(cfg: Config, t: Tables, c: Timed, u: UserId) {
    c.call == Issue(u) && Succeeds(cfg, t, c.call, c.now)
  }

  /** What the first call adds to the list. */
  lemma FirstIssue(cfg: Config, t: Tables, calls: seq<Timed>, u: UserId, k: nat)
    requires k < |IssueTimes(cfg, t, calls, u)|
    ensures var c, times := calls[0], IssueTimes(cfg, t, calls, u);
      var rest := IssueTimes(cfg, AtomicCall(cfg, t, c.call, c.now, c.minted), calls[1..], u);
      if !IssuesTo(cfg, t, c, u) then times == rest
      else times[0] == c.now && (k > 0 ==> k - 1 < |rest| && times[k] == rest[k - 1])
  {
  }

  lemma LinkIsCreated(cfg: Config, t: Tables, c: Timed, u: UserId)
    requires IssuesTo(cfg, t, c, u)
    ensures var t' := AtomicCall(cfg, t, c.call, c.now, c.minted);
      c.minted in t'.magic && t'.magic[c.minted].user == u && t'.magic[c.minted].created == c.now
  {
  }

  lemma IssueIsDistant(cfg: Config, t: Tables, c: Timed, u: UserId, h: Hash)
    requires cfg.rateLimit > 0 && IssuesTo(cfg, t, c, u) && h in t.magic && t.magic[h].user == u
    ensures c.now - t.magic[h].created >= cfg.rateLimit
  {
  }

  /** While a link of `u` was created at `last`, issuances keep their distance from it. */
  lemma {:induction false} IssuesKeepDistance(cfg: Config, t: Tables, calls: seq<Timed>, u: UserId, h: Hash, k: nat)
    requires cfg.rateLimit > 0 && Minted(t, calls) && h in t.magic && t.magic[h].user == u
    requires k < |IssueTimes(cfg, t, calls, u)|
    ensures IssueTimes(cfg, t, calls, u)[k] - t.magic[h].created >= cfg.rateLimit
    decreases |calls|
  {
    var c := calls[0];
    var issued := IssuesTo(cfg, t, c, u);
    FirstIssue(cfg, t, calls, u, k);
    if issued && k == 0 {
      IssueIsDistant(cfg, t, c, u, h);
    } else {
      LinksStay(cfg, t, c, h);
      MintedAfter(cfg, t, calls);
      IssuesKeepDistance(cfg, AtomicCall(cfg, t, c.call, c.now, c.minted), calls[1..], u, h,
                         if issued then k - 1 else k);
    }
  }

  lemma {:induction false} IssuesAreSpaced(cfg: Config, t: Tables, calls: seq<Timed>, u: UserId, k: nat)
    requires cfg.rateLimit > 0 && Minted(t, calls)
    requires k + 1 < |IssueTimes(cfg, t, calls, u)|
    ensures IssueTimes(cfg, t, calls, u)[k + 1] - IssueTimes(cfg, t, calls, u)[k] >= cfg.rateLimit
    decreases |calls|
  {
    var c := calls[0];
    var t' := AtomicCall(cfg, t, c.call, c.now, c.minted);
    MintedAfter(cfg, t, calls);
    FirstIssue(cfg, t, calls, u, k);
    FirstIssue(cfg, t, calls, u, k + 1);
    if !IssuesTo(cfg, t, c, u) {
      IssuesAreSpaced(cfg, t', calls[1..], u, k);
    } else if k == 0 {
      LinkIsCreated(cfg, t, c, u);
      IssuesKeepDistance(cfg, t', calls[1..], u, c.minted, 0);
    } else {
      IssuesAreSpaced(cfg, t', calls[1..], u, k - 1);
    }
  }

  lemma {:induction false} SpacedOut(times: seq<Time>, gap: Time, i: nat, j: nat)
    requires forall k :: 0 <= k && k + 1 < |times| ==> times[k + 1] - times[k] >= gap
    requires i <= j < |times|
    ensures times[j] - times[i] >= (j - i) * gap
    decreases j
  {
    if i < j {
      SpacedOut(times, gap, i, j - 1);
      assert times[j - 1 + 1] - times[j - 1] >= gap;
      assert (j - i) * gap == (j - 1 - i) * gap + gap;
    }
  }

  /** With a rate limit L, whatever else is called in between, any window of length W contains at most
      W / L + 1 issuances to one user. */
  lemma RateLimitBoundsWindows(cfg: Config, t: Tables, calls: seq<Timed>, u: UserId, window: nat, i: nat, j: nat)
    requires cfg.rateLimit > 0 && Minted(t, calls)
    requires i <= j < |IssueTimes(cfg, t, calls, u)|
    requires IssueTimes(cfg, t, calls, u)[j] - IssueTimes(cfg, t, calls, u)[i] <= window
    ensures j - i + 1 <= window / cfg.rateLimit + 1
  {
    var times := IssueTimes(cfg, t, calls, u);
    forall k | 0 <= k && k + 1 < |times| ensures times[k + 1] - times[k] >= cfg.rateLimit {
      IssuesAreSpaced(cfg, t, calls, u, k);
    }
    SpacedOut(times, cfg.rateLimit, i, j);
    DivideBound(j - i, cfg.rateLimit, window);
  }

  lemma DivideBound(n: nat, gap: Time, window: nat)
    requires gap > 0 && n * gap <= window
    ensures n <= window / gap
  {
    var q := window / gap;
    assert window < (q + 1) * gap;
    assert n * gap < (q + 1) * gap;
  }

  // ---- Session lifetime -------------------------------------------------------------------------

  /** The call does not end the session `h` of user `u`. */
  predicate Spares(call: Call, h: Hash, u: UserId) {
    call != Rotate(h) && call != Revoke(h) && call != RevokeAll(u)
  }

  lemma {:induction false} OthersSpare(cfg: Config, t: Tables, calls: seq<Timed>, h: Hash)
    requires h in t.refresh && Minted(t, calls)
    requires forall i :: 0 <= i < |calls| ==> Spares(calls[i].call, h, t.refresh[h].user)
    ensures var t' := Replay(cfg, t, calls); h in t'.refresh && t'.refresh[h] == t.refresh[h]
    decreases |calls|
  {
    if calls != [] {
      var c := calls[0];
      var t' := AtomicCall(cfg, t, c.call, c.now, c.minted);
      assert c.minted != h;
      assert h in t'.refresh && t'.refresh[h] == t.refresh[h];
      MintedAfter(cfg, t, calls);
      OthersSpare(cfg, t', calls[1..], h);
    }
  }

  lemma {:induction false} MintedAfterAll(cfg: Config, t: Tables, first: seq<Timed>, rest: seq<Timed>)
    requires Minted(t, first + rest)
    ensures Minted(t, first) && Minted(Replay(cfg, t, first), rest)
    decreases |first|
  {
    forall i | 0 <= i < |first| ensures first[i] == (first + rest)[i] {}
    if first == [] {
      assert first + rest == rest;
    } else {
      MintedAfter(cfg, t, first + rest);
      assert (first + rest)[1..] == first[1..] + rest;
      MintedAfterAll(cfg, AtomicCall(cfg, t, first[0].call, first[0].now, first[0].minted), first[1..], rest);
    }
  }

  /** A client that always rotates its newest token: in each round other calls come first. */
  datatype Round = Round(others: seq<Timed>, now: Time, minted: Hash)

  /** All calls of the rounds, the client starting with token `h`. */
  function Calls(h: Hash, rounds: seq<Round>): seq<Timed>
    decreases |rounds|
  {
    if rounds == [] then []
    else rounds[0].others + ([Timed(Rotate(h), rounds[0].now, rounds[0].minted)] + Calls(rounds[0].minted, rounds[1..]))
  }

  predicate OthersAllSpare(u: UserId, h: Hash, rounds: seq<Round>)
    decreases |rounds|
  {
    rounds != [] ==>
      && (forall i :: 0 <= i < |rounds[0].others| ==> Spares(rounds[0].others[i].call, h, u))
      && OthersAllSpare(u, rounds[0].minted, rounds[1..])
  }

  /** Every rotation of the client succeeds. */
  predicate AllSucceed(cfg: Config, t: Tables, h: Hash, rounds: seq<Round>)
    decreases |rounds|
  {
    rounds != [] ==>
      var t1 := Replay(cfg, t, rounds[0].others);
      && Succeeds(cfg, t1, Rotate(h), rounds[0].now)
      && AllSucceed(cfg, AtomicCall(cfg, t1, Rotate(h), rounds[0].now, rounds[0].minted), rounds[0].minted, rounds[1..])
  }

  /** Every rotation comes less than the session lifetime after the one before. */
  predicate Prompt(cfg: Config, last: Time, rounds: seq<Round>)
    decreases |rounds|
  {
    rounds != [] ==> rounds[0].now - last < cfg.refreshTTL && Prompt(cfg, rounds[0].now, rounds[1..])
  }

  /** A session that nobody revokes lives exactly as long as it is rotated promptly: all rotations
      succeed if and only if every gap is strictly less than the refresh lifetime. */
  lemma {:induction false} PromptSessionsLive(cfg: Config, t: Tables, h: Hash, last: Time, rounds: seq<Round>)
    requires Unspent(t, h) && t.refresh[h].expires == last + cfg.refreshTTL
    requires Minted(t, Calls(h, rounds)) && OthersAllSpare(t.refresh[h].user, h, rounds)
    ensures AllSucceed(cfg, t, h, rounds) <==> Prompt(cfg, last, rounds)
    decreases |rounds|
  {
    if rounds != [] {
      var r := rounds[0];
      var rotation := [Timed(Rotate(h), r.now, r.minted)] + Calls(r.minted, rounds[1..]);
      MintedAfterAll(cfg, t, r.others, rotation);
      OthersSpare(cfg, t, r.others, h);
      var t1 := Replay(cfg, t, r.others);
      if Succeeds(cfg, t1, Rotate(h), r.now) {
        MintedAfter(cfg, t1, rotation);
        assert rotation[1..] == Calls(r.minted, rounds[1..]);
        PromptSessionsLive(cfg, AtomicCall(cfg, t1, Rotate(h), r.now, r.minted), r.minted, r.now, rounds[1..]);
      }
    }
  }

  predicate Unspent(t: Tables, h: Hash) { h in t.refresh && !t.refresh[h].revoked }

  /** Once its token has expired, a session is over for good: in any later run, no call with that token
      succeeds, so nothing continues its chain. */
  lemma {:induction false} ExpiredSessionsEnd(cfg: Config, t: Tables, calls: seq<Timed>, h: Hash, k: nat)
    requires h in t.refresh && Minted(t, calls) && k < |calls|
    requires forall i :: 0 <= i < |calls| ==> calls[i].now >= t.refresh[h].expires
    ensures var before := Replay(cfg, t, calls[..k]);
      !Succeeds(cfg, before, Rotate(h), calls[k].now) && !Succeeds(cfg, before, Revoke(h), calls[k].now)
    decreases |calls|
  {
    if k > 0 {
      var c := calls[0];
      var t' := AtomicCall(cfg, t, c.call, c.now, c.minted);
      assert c.minted != h;
      assert h in t'.refresh && t'.refresh[h].expires == t.refresh[h].expires;
      MintedAfter(cfg, t, calls);
      assert calls[..k][1..] == calls[1..][..k - 1];
      assert calls[..k][0] == c;
      ExpiredSessionsEnd(cfg, t', calls[1..], h, k - 1);
    }
  }

  // ---- The end of a chain -------------------------------------------------------------------------

  /** The tokens that go back to those in `chain` after the calls. */
  function Descendants(cfg: Config, t: Tables, calls: seq<Timed>, chain: set<Hash>): set<Hash>
    decreases |calls|
  {
    if calls == [] then chain
    else
      var c := calls[0];
      var extended := c.call.Rotate? && c.call.hash in chain && Succeeds(cfg, t, c.call, c.now);
      Descendants(cfg, AtomicCall(cfg, t, c.call, c.now, c.minted), calls[1..],
                  if extended then chain + {c.minted} else chain)
  }

  lemma {:induction false} ReplayConcat(cfg: Config, t: Tables, first: seq<Timed>, rest: seq<Timed>, chain: set<Hash>)
    ensures Replay(cfg, t, first + rest) == Replay(cfg, Replay(cfg, t, first), rest)
    ensures Descendants(cfg, t, first + rest, chain) ==
            Descendants(cfg, Replay(cfg, t, first), rest, Descendants(cfg, t, first, chain))
    decreases |first|
  {
    if first == [] {
      assert first + rest == rest;
    } else {
      var c := first[0];
      assert (first + rest)[1..] == first[1..] + rest;
      var extended := c.call.Rotate? && c.call.hash in chain && Succeeds(cfg, t, c.call, c.now);
      ReplayConcat(cfg, AtomicCall(cfg, t, c.call, c.now, c.minted), first[1..], rest,
                   if extended then chain + {c.minted} else chain);
    }
  }

  /** No token of the chain can be used at or after `from`. */
  ghost predicate Dead(t: Tables, chain: set<Hash>, from: Time) {
    forall h :: h in chain ==> h in t.refresh && (t.refresh[h].revoked || t.refresh[h].expires <= from)
  }

  lemma {:induction false} DeadChainStaysDead(cfg: Config, t: Tables, calls: seq<Timed>, chain: set<Hash>, from: Time)
    requires Dead(t, chain, from) && Minted(t, calls)
    requires forall i :: 0 <= i < |calls| ==> calls[i].now >= from
    ensures Descendants(cfg, t, calls, chain) == chain && Dead(Replay(cfg, t, calls), chain, from)
    decreases |calls|
  {
    if calls != [] {
      var c := calls[0];
      var t' := AtomicCall(cfg, t, c.call, c.now, c.minted);
      MintedAfter(cfg, t, calls);
      assert Dead(t', chain, from);
      DeadChainStaysDead(cfg, t', calls[1..], chain, from);
    }
  }

  ghost predicate Spent(t: Tables,
                        chain: set<Hash>) { forall h :: h in chain ==> h in t.refresh && t.refresh[h].revoked }

  /** Calls that spare the one token of a chain that is left do not extend the chain. */
  lemma {:induction false} OthersAddNothing(cfg: Config, t: Tables, calls: seq<Timed>, h: Hash, spent: set<Hash>)
    requires h in t.refresh && Minted(t, calls) && Spent(t, spent)
    requires forall i :: 0 <= i < |calls| ==> Spares(calls[i].call, h, t.refresh[h].user)
    ensures Descendants(cfg, t, calls, spent + {h}) == spent + {h} && Spent(Replay(cfg, t, calls), spent)
    decreases |calls|
  {
    if calls != [] {
      var c := calls[0];
      var t' := AtomicCall(cfg, t, c.call, c.now, c.minted);
      assert Spent(t', spent) && h in t'.refresh && t'.refresh[h] == t.refresh[h];
      MintedAfter(cfg, t, calls);
      OthersAddNothing(cfg, t', calls[1..], h, spent);
    }
  }

  function LastRotation(last: Time, rounds: seq<Round>): Time
    decreases |rounds|
  {
    if rounds == [] then last else LastRotation(rounds[0].now, rounds[1..])
  }

  /** The rotation of a round: afterwards the token is spent like those before it, and the new one is not. */
  lemma RotationExtendsChain(cfg: Config, t: Tables, h: Hash, now: Time, minted: Hash, rest: seq<Timed>,
                             spent: set<Hash>)
    requires Unspent(t, h) && now < t.refresh[h].expires && Spent(t, spent)
    requires Minted(t, [Timed(Rotate(h), now, minted)] + rest)
    ensures var t2, calls := AtomicCall(cfg, t, Rotate(h), now, minted), [Timed(Rotate(h), now, minted)] + rest;
      && Minted(t2, rest) && Spent(t2, spent + {h}) && Unspent(t2, minted)
      && t2.refresh[minted] == Refresh(t.refresh[h].user, now + cfg.refreshTTL, false)
      && Replay(cfg, t, calls) == Replay(cfg, t2, rest)
      && Descendants(cfg, t, calls, spent + {h}) == Descendants(cfg, t2, rest, spent + {h} + {minted})
  {
    var calls := [Timed(Rotate(h), now, minted)] + rest;
    assert calls[0] == Timed(Rotate(h), now, minted) && calls[1..] == rest;
    MintedAfter(cfg, t, calls);
  }

  /** One round: afterwards the token that was rotated is spent like those before it, and the new one is
      the only other token of the chain. */
  lemma RoundExtendsChain(cfg: Config, t: Tables, h: Hash, r: Round, rest: seq<Timed>, spent: set<Hash>)
    requires Unspent(t, h) && r.now < t.refresh[h].expires && Spent(t, spent)
    requires Minted(t, r.others + ([Timed(Rotate(h), r.now, r.minted)] + rest))
    requires forall i :: 0 <= i < |r.others| ==> Spares(r.others[i].call, h, t.refresh[h].user)
    ensures var t2 := AtomicCall(cfg, Replay(cfg, t, r.others), Rotate(h), r.now, r.minted);
      && Minted(t2, rest) && Spent(t2, spent + {h}) && Unspent(t2, r.minted)
      && t2.refresh[r.minted] == Refresh(t.refresh[h].user, r.now + cfg.refreshTTL, false)
      && Replay(cfg, t, r.others + ([Timed(Rotate(h), r.now, r.minted)] + rest)) == Replay(cfg, t2, rest)
      && Descendants(cfg, t, r.others + ([Timed(Rotate(h), r.now, r.minted)] + rest), spent + {h}) ==
         Descendants(cfg, t2, rest, spent + {h} + {r.minted})
  {
    var rotation := [Timed(Rotate(h), r.now, r.minted)] + rest;
    MintedAfterAll(cfg, t, r.others, rotation);
    OthersSpare(cfg, t, r.others, h);
    OthersAddNothing(cfg, t, r.others, h, spent);
    ReplayConcat(cfg, t, r.others, rotation, spent + {h});
    RotationExtendsChain(cfg, Replay(cfg, t, r.others), h, r.now, r.minted, rest, spent);
  }

  /** After prompt rotations all tokens of the chain but the newest are revoked, and the newest expires a
      lifetime after the last rotation. */
  lemma {:induction false} PromptChain(cfg: Config, t: Tables, h: Hash, last: Time, rounds: seq<Round>,
                                       spent: set<Hash>)
    requires Unspent(t, h) && t.refresh[h].expires == last + cfg.refreshTTL && Spent(t, spent)
    requires Minted(t, Calls(h, rounds)) && OthersAllSpare(t.refresh[h].user, h, rounds) && Prompt(cfg, last, rounds)
    ensures Dead(Replay(cfg, t, Calls(h, rounds)), Descendants(cfg, t, Calls(h, rounds), spent + {h}),
                 LastRotation(last, rounds) + cfg.refreshTTL)
    decreases |rounds|
  {
    if rounds != [] {
      var r := rounds[0];
      RoundExtendsChain(cfg, t, h, r, Calls(r.minted, rounds[1..]), spent);
      var t2 := AtomicCall(cfg, Replay(cfg, t, r.others), Rotate(h), r.now, r.minted);
      PromptChain(cfg, t2, r.minted, r.now, rounds[1..], spent + {h});
    }
  }

  /** A session lives exactly until its first gap. As long as every rotation comes less than a lifetime
      after the one before, all succeed (PromptSessionsLive); once a lifetime has passed since the last, no
      token that ever belonged to the chain can be used again and none is ever added to it, whoever calls
      what from then on. */
  lemma FirstGapEndsChain(cfg: Config, t: Tables, h: Hash, last: Time, rounds: seq<Round>, later: seq<Timed>)
    requires Unspent(t, h) && t.refresh[h].expires == last + cfg.refreshTTL
    requires Minted(t, Calls(h, rounds) + later) && OthersAllSpare(t.refresh[h].user, h, rounds)
      && Prompt(cfg, last, rounds)
    requires forall i :: 0 <= i < |later| ==> later[i].now - LastRotation(last, rounds) >= cfg.refreshTTL
    ensures AllSucceed(cfg, t, h, rounds)
    ensures var chain := Descendants(cfg, t, Calls(h, rounds), {h});
      && Descendants(cfg, t, Calls(h, rounds) + later, {h}) == chain
      && forall c, now :: c in chain && now - LastRotation(last, rounds) >= cfg.refreshTTL ==>
           !LiveRefresh(Replay(cfg, t, Calls(h, rounds) + later), c, now)
  {
    MintedAfterAll(cfg, t, Calls(h, rounds), later);
    PromptSessionsLive(cfg, t, h, last, rounds);
    assert {} + {h} == {h};
    PromptChain(cfg, t, h, last, rounds, {});
    ReplayConcat(cfg, t, Calls(h, rounds), later, {h});
    DeadChainStaysDead(cfg, Replay(cfg, t, Calls(h, rounds)), later, Descendants(cfg, t, Calls(h, rounds), {h}),
                       LastRotation(last, rounds) + cfg.refreshTTL);
  }

  // ---- Revoking every session -------------------------------------------------------------------

  /** The user redeems no link during the calls. */
  predicate NoSignIn(cfg: Config, t: Tables, calls: seq<Timed>, u: UserId)
    decreases |calls|
  {
    calls != [] ==>
      var c := calls[0];
      && !(c.call.Verify? && LiveLink(t, c.call.hash, c.now) && t.magic[c.call.hash].user == u)
      && NoSignIn(cfg, AtomicCall(cfg, t, c.call, c.now, c.minted), calls[1..], u)
  }

  /** In one instant, revoking all sessions of a user ends them for good: whatever is called afterwards,
      the user has no session until a link is redeemed. */
  lemma RevokedUserStaysSignedOut(cfg: Config, t: Tables, u: UserId, now: Time, calls: seq<Timed>)
    requires Minted(t, calls) && NoSignIn(cfg, AtomicCall(cfg, t, RevokeAll(u), now, 0), calls, u)
    ensures UnrevokedOf(Replay(cfg, AtomicCall(cfg, t, RevokeAll(u), now, 0), calls), u) == {}
  {
    SignedOutUserStaysSignedOut(cfg, AtomicCall(cfg, t, RevokeAll(u), now, 0), u, calls);
  }

  lemma {:induction false} SignedOutUserStaysSignedOut(cfg: Config, t: Tables, u: UserId, calls: seq<Timed>)
    requires UnrevokedOf(t, u) == {} && Minted(t, calls) && NoSignIn(cfg, t, calls, u)
    ensures UnrevokedOf(Replay(cfg, t, calls), u) == {}
    decreases |calls|
  {
    if calls != [] {
      var c := calls[0];
      SignedOutAfterCall(cfg, t, u, c);
      MintedAfter(cfg, t, calls);
      SignedOutUserStaysSignedOut(cfg, AtomicCall(cfg, t, c.call, c.now, c.minted), u, calls[1..]);
    }
  }

  lemma SignedOutAfterCall(cfg: Config, t: Tables, u: UserId, c: Timed)
    requires UnrevokedOf(t, u) == {}
    requires !(c.call.Verify? && LiveLink(t, c.call.hash, c.now) && t.magic[c.call.hash].user == u)
    ensures UnrevokedOf(AtomicCall(cfg, t, c.call, c.now, c.minted), u) == {}
  {
    var t' := AtomicCall(cfg, t, c.call, c.now, c.minted);
    forall h ensures h !in UnrevokedOf(t', u) {
      assert h !in UnrevokedOf(t, u);
      if c.call.Rotate? && LiveRefresh(t, c.call.hash, c.now) { assert c.call.hash !in UnrevokedOf(t, u); }
    }
  }
}
