/** Token tables, the guarded statements of pgauth/query.go, and what each operation of core/auth/auth.go
    does when it runs in one instant. */
module AuthTables {
  import opened Permissions

  type UserId = nat
  type Hash = nat   // the SHA-256 digest that stands for a token
  type Time = int   // one clock for the application and the database

  datatype MagicLink = MagicLink(user: UserId, expires: Time, used: bool, created: Time)
  datatype Refresh = Refresh(user: UserId, expires: Time, revoked: bool)

  // useraccess.magic_link_tokens and useraccess.refresh_tokens, by token_hash, and the users whose
  // email_verified_at is set.
  datatype Tables = Tables(magic: map<Hash, MagicLink>, refresh: map<Hash, Refresh>, verified: set<UserId>)

  datatype Config = Config(users: set<UserId>, magicTTL: Time, rateLimit: Time, refreshTTL: Time)

  datatype Writes = Writes(
    used: set<Hash>, magic: map<Hash, MagicLink>,
    revoked: set<Hash>, refresh: map<Hash, Refresh>,
    verified: set<UserId>)

  const NO_WRITES := Writes({}, map[], {}, map[], {})

  function Apply(t: Tables, d: Writes): Tables {
    Tables(
      (map h | h in t.magic :: if h in d.used then t.magic[h].(used := true) else t.magic[h]) + d.magic,
      (map h | h in t.refresh :: if h in d.revoked then t.refresh[h].(revoked := true) else t.refresh[h]) + d.refresh,
      t.verified + d.verified)
  }

  /** magicLinkTokenByHashQuery and the WHERE clause of consumeMagicLinkTokenQuery. */
  predicate LiveLink(t: Tables, h: Hash, now: Time) {
    h in t.magic && !t.magic[h].used && t.magic[h].expires > now
  }

  /** The WHERE clause of consumeRefreshTokenQuery. */
  predicate LiveRefresh(t: Tables, h: Hash, now: Time) {
    h in t.refresh && !t.refresh[h].revoked && t.refresh[h].expires > now
  }

  /** The rows of invalidateUserMagicLinkTokensQuery. */
  function LiveLinksOf(t: Tables, u: UserId, now: Time): set<Hash> {
    set h | h in t.magic && t.magic[h].user == u && LiveLink(t, h, now)
  }

  /** The rows of revokeAllUserRefreshTokensQuery, expired ones included. */
  function UnrevokedOf(t: Tables, u: UserId): set<Hash> {
    set h | h in t.refresh && t.refresh[h].user == u && !t.refresh[h].revoked
  }

  /** Tokens refer to users. */
  ghost predicate OwnersKnown(cfg: Config, t: Tables) {
    && (forall h :: h in t.magic ==> t.magic[h].user in cfg.users)
    && (forall h :: h in t.refresh ==> t.refresh[h].user in cfg.users)
  }

  /** The test on latestMagicLinkTokenCreatedAtQuery: the newest link of the user is too recent. */
  predicate RateLimited(cfg: Config, t: Tables, u: UserId, now: Time) {
    cfg.rateLimit > 0 && exists h :: h in t.magic && t.magic[h].user == u && now - t.magic[h].created < cfg.rateLimit
  }

  // ---- One call in one instant ------------------------------------------------------------------

  datatype Call =
    | Issue(user: UserId)
    | Verify(hash: Hash)
    | Rotate(hash: Hash)
    | Revoke(hash: Hash)
    | RevokeAll(user: UserId)

  datatype Outcome = Completed | NotFound | TooMany | TokenInvalid | Aborted

  /** The rows written by a call at time `now`, whose generated token has digest `minted`; none for a call
      that fails. */
  function CallWrites(cfg: Config, t: Tables, call: Call, now: Time, minted: Hash): (Writes, Outcome) {
    match call
    case Issue(u) =>
      if u !in cfg.users then (NO_WRITES, NotFound)
      else if RateLimited(cfg, t, u, now) then (NO_WRITES, TooMany)
      else (NO_WRITES.(used := LiveLinksOf(t, u, now),
                       magic := map[minted := MagicLink(u, now + cfg.magicTTL, false, now)]), Completed)
    case Verify(h) =>
      if !LiveLink(t, h, now) then (NO_WRITES, TokenInvalid)
      else (NO_WRITES.(used := {h}, verified := {t.magic[h].user},
                       refresh := map[minted := Refresh(t.magic[h].user, now + cfg.refreshTTL, false)]), Completed)
    case Rotate(h) =>
      if !LiveRefresh(t, h, now) then (NO_WRITES, TokenInvalid)
      else (NO_WRITES.(revoked := {h},
                       refresh := map[minted := Refresh(t.refresh[h].user, now + cfg.refreshTTL, false)]), Completed)
    case Revoke(h) =>
      if !LiveRefresh(t, h, now) then (NO_WRITES, TokenInvalid)
      else (NO_WRITES.(revoked := {h}), Completed)
    case RevokeAll(u) => (NO_WRITES.(revoked := UnrevokedOf(t, u)), Completed)
  }

  function AtomicCall(cfg: Config, t: Tables, call: Call, now: Time, minted: Hash): Tables {
    Apply(t, CallWrites(cfg, t, call, now, minted).0)
  }

  function Succeeds(cfg: Config, t: Tables, call: Call, now: Time): bool {
    CallWrites(cfg, t, call, now, 0).1 == Completed
  }

  lemma NothingWritten(t: Tables)
    ensures Apply(t, NO_WRITES) == t
  {
  }

  /** Every token a call creates belongs to a user. */
  lemma CallKeepsOwners(cfg: Config, t: Tables, call: Call, now: Time, minted: Hash)
    requires OwnersKnown(cfg, t)
    ensures OwnersKnown(cfg, AtomicCall(cfg, t, call, now, minted))
  {
  }
}
