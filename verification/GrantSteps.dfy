/** The transactions on refresh grants and accounts, each as one function of the database.

A transaction reads the clock either under the family lock (`now`) or before it
starts (`sampledAt`); both are parameters. The client registry and the lifetimes
are fixed configuration. Resource-binding and client-access policy are decided
elsewhere, so their verdicts are part of the presented request.
*/
module GrantSteps {
  import opened Prelude
  import opened GrantTables

  const MAX_CHILDREN: nat := 3
  const REVOKED_RETENTION: Time := 7 * DAY
  const EXPIRED_RETENTION: Time := DAY
  const TOMBSTONE_MARGIN: Time := 7 * DAY
  const DELETION_DELAY: Time := 30 * DAY

  /** `lag` bounds how long before a transaction takes effect its early clock reading may be. */
  datatype Config = Config(grace: Time, ttl: Time, lag: Time, graceClients: set<ClientId>)

  // ---------- redemption ----------

  /** A presented refresh token with the request that carries it. */
  datatype Presentation = Presentation(
    hash: TokenHash, isRefresh: bool, client: ClientId, subject: UserId, scopes: seq<Scope>,
    resourceOk: bool, accessOk: bool)

  datatype Refusal =
    | UnknownToken | NotThisGrant | InvalidScope | Expired | ResourceRefused
    | UserMissing | NotActive | AccessRefused | GraceExhausted | Replay

  datatype Grace = GraceNone | GraceIssue | GraceRefuse

  datatype Verdict =
    | Redeem(id: TokenId)
    | GraceChild(id: TokenId)
    | Kill(id: TokenId)
    | Refuse(why: Refusal)

  /** A replay that may be let through: the row was redeemed, in one write, no more than the grace ago; its client has
      the grace; and nobody has ended its family by a tombstone or by revoking an unredeemed row. */
  predicate Replayable(cfg: Config, db: Db, rt: Token, now: Time) {
    && cfg.grace > 0
    && rt.usedAt.Some? && rt.revokedAt == rt.usedAt
    && now <= rt.usedAt.value + cfg.grace
    && rt.grant.client in cfg.graceClients
    && rt.family !in db.tombstones
    && forall i :: i in db.tokens && db.tokens[i].family == rt.family ==> !db.tokens[i].RevokedOnPurpose()
  }

  function GraceDecision(cfg: Config, db: Db, id: TokenId, now: Time): (g: Grace)
    requires id in db.tokens
  {
    if !Replayable(cfg, db, db.tokens[id], now) then GraceNone
    else if |Children(db.tokens, id)| < MAX_CHILDREN then GraceIssue
    else GraceRefuse
  }

  /** The checks made on a row whatever its state; None lets the request through. */
  function Validate(db: Db, rt: Token, p: Presentation, now: Time): (why: Option<Refusal>) {
    if !p.isRefresh || p.client != rt.grant.client || p.subject != rt.grant.user then Some(NotThisGrant)
    else if exists sc :: sc in p.scopes && sc !in rt.grant.scopes then Some(InvalidScope)
    else if now >= rt.expiresAt then Some(Expired)
    else if !p.resourceOk then Some(ResourceRefused)
    else if rt.grant.user !in db.users then Some(UserMissing)
    else if db.users[rt.grant.user].status != Active then Some(NotActive)
    else if !p.accessOk then Some(AccessRefused)
    else None
  }

  function DecideRow(cfg: Config, db: Db, id: TokenId, p: Presentation, now: Time): (v: Verdict)
    requires id in db.tokens
  {
    var rt := db.tokens[id];
    var why := Validate(db, rt, p, now);
    if why.Some? then Refuse(why.value)
    else if rt.Live() && rt.family !in db.tombstones then Redeem(id)
    else match GraceDecision(cfg, db, id, now)
      case GraceIssue => GraceChild(id)
      case GraceRefuse => Refuse(GraceExhausted)
      case GraceNone => Kill(id)
  }

  ghost function Decide(cfg: Config, db: Db, p: Presentation, now: Time): (v: Verdict)
    ensures !v.Refuse? ==> v.id in db.tokens && db.tokens[v.id].hash == p.hash
  {
    match FindByHash(db.tokens, p.hash)
    case None => Refuse(UnknownToken)
    case Some(id) => DecideRow(cfg, db, id, p, now)
  }

  function ChildOf(cfg: Config, parent: Token, id: TokenId, hash: TokenHash, issuedAt: Time): Token {
    Token(hash, parent.family, parent.grant, issuedAt, issuedAt + cfg.ttl, None, None, Some(id))
  }

  function FirstToken(cfg: Config, family: FamilyId, grant: Grant, hash: TokenHash, issuedAt: Time): Token {
    Token(hash, family, grant, issuedAt, issuedAt + cfg.ttl, None, None, None)
  }

  function KillFamily(db: Db, f: FamilyId, tomb: Tombstone): Db {
    db.(tokens := RevokeFamily(db.tokens, f, tomb.revokedAt),
        tombstones := AddTombstone(db.tombstones, f, tomb))
  }

  /** What a verdict does to the database; a child is inserted as `newId`. */
  function Carry(cfg: Config, db: Db, v: Verdict, issuedAt: Time, now: Time, newId: TokenId,
                 newHash: TokenHash): (d: Db)
    requires !v.Refuse? ==> v.id in db.tokens
  {
    match v
    case Redeem(id) =>
      db.(tokens := MarkUsed(db.tokens, id, now)[newId := ChildOf(cfg, db.tokens[id], id, newHash, issuedAt)])
    case GraceChild(id) =>
      db.(tokens := db.tokens[newId := ChildOf(cfg, db.tokens[id], id, newHash, issuedAt)])
    case Kill(id) =>
      KillFamily(db, db.tokens[id].family, Tombstone(db.tokens[id].grant.user, ReuseDetected, now))
    case Refuse(_) => db
  }

  datatype Answer = Issued(parent: TokenId) | Refused(why: Refusal)

  function Reply(v: Verdict): Answer {
    match v
    case Redeem(id) => Issued(id)
    case GraceChild(id) => Issued(id)
    case Kill(_) => Refused(Replay)
    case Refuse(why) => Refused(why)
  }

  // ---------- revocation ----------

  /** The row named by a revocation request: by hash, else by row id, always scoped to the client. */
  ghost function LookupGrant(t: Tokens, hash: TokenHash, byId: Option<TokenId>, client: ClientId): (r: Option<TokenId>)
    ensures r.Some? ==> r.value in t && t[r.value].grant.client == client
  {
    var h := FindByHash(t, hash);
    if h.Some? && t[h.value].grant.client == client then h
    else if byId.Some? && byId.value in t && t[byId.value].grant.client == client then byId
    else None
  }

  ghost function RevokeGrant(db: Db, hash: TokenHash, byId: Option<TokenId>, client: ClientId, sampledAt: Time): Db {
    match LookupGrant(db.tokens, hash, byId, client)
    case None => db
    case Some(id) =>
      var rt := db.tokens[id];
      KillFamily(db, rt.family, Tombstone(rt.grant.user, Revoked, sampledAt))
  }

  // ---------- accounts ----------

  datatype DeletionAnswer = Accepted | AccountClosed(status: Status) | NoSuchUser

  function RequestDeletionAnswer(db: Db, u: UserId): DeletionAnswer {
    if u !in db.users then NoSuchUser
    else match db.users[u].status
      case Active => Accepted
      case PendingDeletion => Accepted
      case other => AccountClosed(other)
  }

  function RequestDeletion(db: Db, u: UserId, sampledAt: Time): Db {
    if RequestDeletionAnswer(db, u) != Accepted then db
    else
      var users := if db.users[u].status == Active
                   then db.users[u := User(PendingDeletion, Some(sampledAt + DELETION_DELAY))]
                   else db.users;
      db.(users := users, tokens := RevokeUser(db.tokens, u, sampledAt))
  }

  function Recover(db: Db, u: UserId): Db {
    if u in db.users && db.users[u].status == PendingDeletion then db.(users := db.users[u := User(Active, None)])
        else db
  }

  /** DisableUser writes the status whatever it was. */
  function Disable(db: Db, u: UserId): Db {
    if u in db.users then db.(users := db.users[u := db.users[u].(status := Disabled)]) else db
  }

  /** The guard of the final deletion: still pending, and past the scheduled date. */
  predicate Wipeable(db: Db, u: UserId, now: Time) {
    && u in db.users
    && db.users[u].status == PendingDeletion
    && db.users[u].scheduledAt.Some?
    && db.users[u].scheduledAt.value < now
  }

  function Wipe(db: Db, u: UserId, now: Time): Db {
    if !Wipeable(db, u, now) then db
    else Db(DropUserTokens(db.tokens, u), db.tombstones, db.users[u := User(Deleted, None)],
            DropUserIdentities(db.identities, u), DropUserSessions(db.sessions, u))
  }

  // ---------- cleanup ----------

  predicate RevokedLongAgo(row: Token, now: Time) {
    row.revokedAt.Some? && row.revokedAt.value < now - REVOKED_RETENTION
  }

  predicate ExpiredLongAgo(row: Token, now: Time) {
    row.expiresAt < now - EXPIRED_RETENTION
  }

  predicate StaleTombstone(cfg: Config, tomb: Tombstone, now: Time) {
    tomb.revokedAt < now - (cfg.ttl + TOMBSTONE_MARGIN)
  }
}
