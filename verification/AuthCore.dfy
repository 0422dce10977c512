/** core/auth/auth.go and the statements of pgauth/query.go as the code issues them, one call at a time:
    proved to do what AuthTables says a call does in one instant. */
module AuthCore {
  import opened Permissions
  import opened AuthTables

  lemma InvalidateThenCreate(t: Tables, used: set<Hash>, links: map<Hash, MagicLink>)
    ensures Apply(Apply(t, NO_WRITES.(used := used)), NO_WRITES.(magic := links)) ==
      Apply(t, NO_WRITES.(used := used, magic := links))
  {
  }

  lemma ConsumeThenIssue(t: Tables, d: Writes, sessions: map<Hash, Refresh>)
    requires d.refresh == map[]
    ensures Apply(Apply(t, d), NO_WRITES.(refresh := sessions)) == Apply(t, d.(refresh := sessions))
  {
  }

  /** The two writes of a redemption. */
  lemma VerifyWrites(cfg: Config, t: Tables, h: Hash, now: Time, minted: Hash)
    requires OwnersKnown(cfg, t)
    ensures var (writes, outcome) := CallWrites(cfg, t, Verify(h), now, minted);
      && OwnersKnown(cfg, Apply(t, writes))
      && outcome == (if LiveLink(t, h, now) then Completed else TokenInvalid)
      && Apply(t, writes) ==
         if LiveLink(t, h, now) then
           var u := t.magic[h].user;
           Apply(Apply(t, NO_WRITES.(used := {h}, verified := {u})),
                 NO_WRITES.(refresh := map[minted := Refresh(u, now + cfg.refreshTTL, false)]))
         else t
  {
    CallKeepsOwners(cfg, t, Verify(h), now, minted);
    if LiveLink(t, h, now) {
      var u := t.magic[h].user;
      ConsumeThenIssue(t, NO_WRITES.(used := {h}, verified := {u}),
                       map[minted := Refresh(u, now + cfg.refreshTTL, false)]);
    } else {
      NothingWritten(t);
    }
  }

  /** The two writes of a rotation. */
  lemma RotateWrites(cfg: Config, t: Tables, h: Hash, now: Time, minted: Hash)
    requires OwnersKnown(cfg, t)
    ensures var (writes, outcome) := CallWrites(cfg, t, Rotate(h), now, minted);
      && OwnersKnown(cfg, Apply(t, writes))
      && outcome == (if LiveRefresh(t, h, now) then Completed else TokenInvalid)
      && Apply(t, writes) ==
         if LiveRefresh(t, h, now) then
           Apply(Apply(t, NO_WRITES.(revoked := {h})),
                 NO_WRITES.(refresh := map[minted := Refresh(t.refresh[h].user, now + cfg.refreshTTL, false)]))
         else t
  {
    CallKeepsOwners(cfg, t, Rotate(h), now, minted);
    if LiveRefresh(t, h, now) {
      ConsumeThenIssue(t, NO_WRITES.(revoked := {h}),
                       map[minted := Refresh(t.refresh[h].user, now + cfg.refreshTTL, false)]);
    } else {
      NothingWritten(t);
    }
  }

  class Core {
    const cfg: Config
    var magic: map<Hash, MagicLink>
    var refresh: map<Hash, Refresh>
    var verified: set<UserId>

    function View(): Tables reads this { Tables(magic, refresh, verified) }

    // The foreign keys of the token tables.
    ghost predicate Valid() reads this { OwnersKnown(cfg, View()) }

    constructor (cfg: Config)
      ensures Valid() && this.cfg == cfg && View() == Tables(map[], map[], {})
    {
      this.cfg := cfg;
      magic, refresh, verified := map[], map[], {};
    }

    // ---- Statements -----------------------------------------------------------------------------

    /** ORDER BY created_at DESC LIMIT 1 */
    method LatestMagicLinkTokenCreatedAt(u: UserId) returns (latest: Option<Time>)
      ensures latest.None? <==> forall h :: h in magic ==> magic[h].user != u
      ensures latest.Some? ==> forall h :: h in magic && magic[h].user == u ==> magic[h].created <= latest.value
      ensures latest.Some? ==> exists h :: h in magic && magic[h].user == u && magic[h].created == latest.value
    {
      latest := None;
      var rest := magic.Keys;
      while rest != {}
        invariant rest <= magic.Keys
        invariant latest.None? <==> forall h :: h in magic.Keys - rest ==> magic[h].user != u
        invariant latest.Some? ==> forall h :: h in magic.Keys - rest && magic[h].user == u ==>
          magic[h].created <= latest.value
        invariant latest.Some? ==> exists h :: h in magic && magic[h].user == u && magic[h].created == latest.value
      {
        var h :| h in rest;
        if magic[h].user == u && (latest.None? || latest.value < magic[h].created) {
          latest := Some(magic[h].created);
        }
        rest := rest - {h};
      }
    }

    method InvalidateUserMagicLinkTokens(u: UserId, now: Time)
      modifies this`magic
      ensures View() == Apply(old(View()), NO_WRITES.(used := LiveLinksOf(old(View()), u, now)))
    {
      magic := map h | h in magic ::
        if magic[h].user == u && !magic[h].used && magic[h].expires > now then magic[h].(used := true) else magic[h];
    }

    method CreateMagicLinkToken(u: UserId, h: Hash, expires: Time, now: Time)
      modifies this`magic
      ensures View() == Apply(old(View()), NO_WRITES.(magic := map[h := MagicLink(u, expires, false, now)]))
    {
      magic := magic[h := MagicLink(u, expires, false, now)];
    }

    method ConsumeMagicLinkToken(h: Hash, now: Time) returns (ok: bool)
      modifies this`magic
      ensures ok == LiveLink(old(View()), h, now)
      ensures View() == if ok then Apply(old(View()), NO_WRITES.(used := {h})) else old(View())
      ensures ok ==> h in old(magic) && magic == old(magic)[h := old(magic)[h].(used := true)]
    {
      ok := h in magic && !magic[h].used && magic[h].expires > now;
      if ok { magic := magic[h := magic[h].(used := true)]; }
    }

    /** The owner of the token, if the guarded update found it. */
    method ConsumeRefreshToken(h: Hash, now: Time) returns (user: Option<UserId>)
      modifies this`refresh
      ensures user == if LiveRefresh(old(View()), h, now) then Some(old(refresh[h].user)) else None
      ensures View() == if user.Some? then Apply(old(View()), NO_WRITES.(revoked := {h})) else old(View())
      ensures user.Some? ==> h in old(refresh) && refresh == old(refresh)[h := old(refresh)[h].(revoked := true)]
    {
      if h !in refresh || refresh[h].revoked || refresh[h].expires <= now { return None; }
      user := Some(refresh[h].user);
      refresh := refresh[h := refresh[h].(revoked := true)];
    }

    /** markEmailVerifiedQuery: no row without the user; a user that is verified stays so. */
    method MarkEmailVerified(u: UserId) returns (ok: bool)
      modifies this`verified
      ensures ok == (u in cfg.users) && verified == old(verified) + if ok then {u} else {}
    {
      ok := u in cfg.users;
      if ok { verified := verified + {u}; }
    }

    /** The part of issueTokenPair that is stored. */
    method IssueTokenPair(u: UserId, now: Time, minted: Hash)
      modifies this`refresh
      ensures View() == Apply(old(View()),
                              NO_WRITES.(refresh := map[minted := Refresh(u, now + cfg.refreshTTL, false)]))
      ensures refresh == old(refresh)[minted := Refresh(u, now + cfg.refreshTTL, false)]
    {
      refresh := refresh[minted := Refresh(u, now + cfg.refreshTTL, false)];
    }

    // ---- Operations -----------------------------------------------------------------------------

    /** The rate check inside MagicLinkToken. */
    method TooRecent(u: UserId, now: Time) returns (limited: bool)
      ensures limited == RateLimited(cfg, View(), u, now)
      ensures limited <==>
        cfg.rateLimit > 0 && exists h :: h in magic && magic[h].user == u && now - magic[h].created < cfg.rateLimit
    {
      if cfg.rateLimit <= 0 { return false; }
      var lastSent := LatestMagicLinkTokenCreatedAt(u);
      return lastSent.Some? && now - lastSent.value < cfg.rateLimit;
    }

    /** The two writes of MagicLinkToken. */
    method ReplaceLinks(u: UserId, now: Time, minted: Hash)
      modifies this`magic
      ensures View() == Apply(old(View()), NO_WRITES.(
        used := LiveLinksOf(old(View()), u, now),
        magic := map[minted := MagicLink(u, now + cfg.magicTTL, false, now)]))
      ensures LinkReplaced(old(magic), magic, u, now, minted)
    {
      InvalidateThenCreate(View(), LiveLinksOf(View(), u, now),
                           map[minted := MagicLink(u, now + cfg.magicTTL, false, now)]);
      InvalidateUserMagicLinkTokens(u, now);
      CreateMagicLinkToken(u, minted, now + cfg.magicTTL, now);
    }

    /** There is one link more, and the links of the user that could still be redeemed are used up; no link of
        anybody else is touched. */
    ghost predicate LinkReplaced(before: map<Hash, MagicLink>, after: map<Hash, MagicLink>, u: UserId, now: Time,
                                 minted: Hash) {
      && after.Keys == before.Keys + {minted} && after[minted] == MagicLink(u, now + cfg.magicTTL, false, now)
      && forall h :: h in before && h != minted ==>
           after[h] == before[h].(used := before[h].used || (before[h].user == u && before[h].expires > now))
    }

    /** A user that does not exist is not found; one with a link younger than the limit has to wait; everybody else
        is served, whatever links others have. */
    method MagicLinkToken(u: UserId, now: Time, minted: Hash) returns (r: Outcome)
      requires Valid()
      modifies this
      ensures Valid()
      ensures View() == AtomicCall(cfg, old(View()), Issue(u), now, minted)
      ensures r == CallWrites(cfg, old(View()), Issue(u), now, minted).1
      ensures var recent := cfg.rateLimit > 0
          && exists h :: h in old(magic) && old(magic)[h].user == u && now - old(magic)[h].created < cfg.rateLimit;
        && (r == NotFound <==> u !in cfg.users)
        && (r == TooMany <==> u in cfg.users && recent)
        && (r == Completed <==> u in cfg.users && !recent)
      ensures refresh == old(refresh) && verified == old(verified) && (r != Completed ==> magic == old(magic))
      ensures r == Completed ==> LinkReplaced(old(magic), magic, u, now, minted)
    {
      NothingWritten(View());
      CallKeepsOwners(cfg, View(), Issue(u), now, minted);
      if u !in cfg.users { return NotFound; }
      var limited := TooRecent(u, now);
      if limited { return TooMany; }
      ReplaceLinks(u, now, minted);
      return Completed;
    }

    method VerifyMagicLink(h: Hash, now: Time, minted: Hash) returns (r: Outcome)
      requires Valid()
      modifies this
      ensures Valid()
      ensures View() == AtomicCall(cfg, old(View()), Verify(h), now, minted)
      ensures r == CallWrites(cfg, old(View()), Verify(h), now, minted).1
      ensures r == Completed <==> h in old(magic) && !old(magic)[h].used && old(magic)[h].expires > now
      ensures r == Completed ==>
        && magic == old(magic)[h := old(magic)[h].(used := true)]
        && verified == old(verified) + {old(magic)[h].user}
        && refresh == old(refresh)[minted := Refresh(old(magic)[h].user, now + cfg.refreshTTL, false)]
      ensures r != Completed ==> r == TokenInvalid && View() == old(View())
    {
      ghost var t := View();
      VerifyWrites(cfg, t, h, now, minted);
      // MagicLinkTokenByHash
      if h !in magic || magic[h].used || magic[h].expires <= now { return TokenInvalid; }
      var u := magic[h].user;
      var ok := ConsumeMagicLinkToken(h, now);
      if !ok { assert false; }
      ok := MarkEmailVerified(u);
      if !ok { assert false; }
      assert View() == Apply(t, NO_WRITES.(used := {h}, verified := {u}));
      IssueTokenPair(u, now, minted);
      return Completed;
    }

    method RefreshAccessToken(h: Hash, now: Time, minted: Hash) returns (r: Outcome)
      requires Valid()
      modifies this
      ensures Valid()
      ensures View() == AtomicCall(cfg, old(View()), Rotate(h), now, minted)
      ensures r == CallWrites(cfg, old(View()), Rotate(h), now, minted).1
      ensures r == Completed <==> h in old(refresh) && !old(refresh)[h].revoked && old(refresh)[h].expires > now
      ensures r == Completed ==>
        && refresh == old(refresh)[h := old(refresh)[h].(revoked := true)]
                                  [minted := Refresh(old(refresh)[h].user, now + cfg.refreshTTL, false)]
        && magic == old(magic) && verified == old(verified)
      ensures r != Completed ==> r == TokenInvalid && View() == old(View())
    {
      RotateWrites(cfg, View(), h, now, minted);
      var u := ConsumeRefreshToken(h, now);
      if u.None? { return TokenInvalid; }
      IssueTokenPair(u.value, now, minted);
      return Completed;
    }

    method RevokeRefreshToken(h: Hash, now: Time) returns (r: Outcome)
      requires Valid()
      modifies this
      ensures Valid()
      ensures View() == AtomicCall(cfg, old(View()), Revoke(h), now, 0)
      ensures r == CallWrites(cfg, old(View()), Revoke(h), now, 0).1
      ensures r == Completed <==> h in old(refresh) && !old(refresh)[h].revoked && old(refresh)[h].expires > now
      ensures r == Completed ==>
        && refresh == old(refresh)[h := old(refresh)[h].(revoked := true)]
        && magic == old(magic) && verified == old(verified)
      ensures r != Completed ==> r == TokenInvalid && View() == old(View())
    {
      NothingWritten(View());
      CallKeepsOwners(cfg, View(), Revoke(h), now, 0);
      var u := ConsumeRefreshToken(h, now);
      if u.None? { return TokenInvalid; }
      return Completed;
    }

    method RevokeAllUserRefreshTokens(u: UserId)
      requires Valid()
      modifies this
      ensures Valid()
      ensures View() == AtomicCall(cfg, old(View()), RevokeAll(u), 0, 0)
      ensures refresh.Keys == old(refresh).Keys && magic == old(magic) && verified == old(verified)
      ensures forall h :: h in refresh ==>
        refresh[h] == old(refresh)[h].(revoked := old(refresh)[h].revoked || old(refresh)[h].user == u)
    {
      refresh := map h | h in refresh :: if refresh[h].user == u then refresh[h].(revoked := true) else refresh[h];
    }
  }
}
