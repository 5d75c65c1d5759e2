/** The tables behind refresh grants, and one function per SQL statement on them.

Identifiers are opaque: only equality matters, so they are numbers here. A
token row is keyed by its primary key; the token hash is a second unique column,
and since hashes are taken to be injective it also stands for the token itself.
*/
module GrantTables {
  import opened Prelude

  type TokenId = nat
  type TokenHash = nat
  type FamilyId = nat
  type UserId = nat
  type ClientId = nat
  type Resource = nat
  type Scope = nat
  type RowId = nat

  /** What every token of one family has in common. */
  datatype Grant = Grant(user: UserId, client: ClientId, resource: Resource, scopes: seq<Scope>)

  /** A row of refresh_tokens. */
  datatype Token = Token(
    hash: TokenHash, family: FamilyId, grant: Grant, createdAt: Time, expiresAt: Time,
    revokedAt: Option<Time>, usedAt: Option<Time>, parent: Option<TokenId>)
  {
    /** Neither redeemed nor revoked. */
    predicate Live() {
      revokedAt.None? && usedAt.None?
    }

    /** Revoked without having been redeemed: somebody ended the session on purpose. */
    predicate RevokedOnPurpose() {
      revokedAt.Some? && usedAt.None?
    }
  }

  type Tokens = map<TokenId, Token>

  datatype Reason = ReuseDetected | Revoked

  /** A row of refresh_token_families. */
  datatype Tombstone = Tombstone(user: UserId, reason: Reason, revokedAt: Time)

  type Tombstones = map<FamilyId, Tombstone>

  datatype Status = Active | Disabled | PendingDeletion | Deleted

  /** A row of users; `scheduledAt` is deletion_scheduled_at. */
  datatype User = User(status: Status, scheduledAt: Option<Time>)

  datatype Session = Session(user: UserId, expiresAt: Time, revoked: bool)

  /** The database: identities map each identity row to its owner. */
  datatype Db = Db(
    tokens: Tokens, tombstones: Tombstones, users: map<UserId, User>,
    identities: map<RowId, UserId>, sessions: map<RowId, Session>)

  // ---------- queries ----------

  ghost predicate UniqueHashes(t: Tokens) {
    forall i, j :: i in t && j in t && t[i].hash == t[j].hash ==> i == j
  }

  /** The row carrying this hash, if any. */
  ghost function FindByHash(t: Tokens, h: TokenHash): (r: Option<TokenId>)
    ensures r.Some? ==> r.value in t && t[r.value].hash == h
    ensures r.None? ==> forall i :: i in t ==> t[i].hash != h
  {
    if exists i :: i in t && t[i].hash == h then
      var i :| i in t && t[i].hash == h;
      Some(i)
    else
      None
  }

  function Children(t: Tokens, p: TokenId): set<TokenId> {
    set c | c in t && t[c].parent == Some(p)
  }

  predicate HasRevokedOnPurpose(t: Tokens, f: FamilyId) {
    exists i :: i in t && t[i].family == f && t[i].RevokedOnPurpose()
  }

  // ---------- statements ----------

  function MarkUsed(t: Tokens, id: TokenId, now: Time): Tokens {
    if id in t then t[id := t[id].(usedAt := Some(now), revokedAt := Some(now))] else t
  }

  function RevokeRow(row: Token, now: Time): Token {
    if row.revokedAt.None? then row.(revokedAt := Some(now)) else row
  }

  function RevokeFamily(t: Tokens, f: FamilyId, now: Time): Tokens {
    map i | i in t :: if t[i].family == f then RevokeRow(t[i], now) else t[i]
  }

  function RevokeUser(t: Tokens, u: UserId, now: Time): Tokens {
    map i | i in t :: if t[i].grant.user == u then RevokeRow(t[i], now) else t[i]
  }

  /** INSERT ... ON CONFLICT DO NOTHING. */
  function AddTombstone(ts: Tombstones, f: FamilyId, tomb: Tombstone): Tombstones {
    if f in ts then ts else ts[f := tomb]
  }

  function DropUserTokens(t: Tokens, u: UserId): Tokens {
    map i | i in t && t[i].grant.user != u :: t[i]
  }

  function DropUserSessions(s: map<RowId, Session>, u: UserId): map<RowId, Session> {
    map i | i in s && s[i].user != u :: s[i]
  }

  function DropUserIdentities(s: map<RowId, UserId>, u: UserId): map<RowId, UserId> {
    map i | i in s && s[i] != u :: s[i]
  }

  predicate Unrevoked(t: Tokens, f: FamilyId) {
    exists i :: i in t && t[i].family == f && t[i].revokedAt.None?
  }

  lemma RevokingChanges(t: Tokens, f: FamilyId, now: Time)
    ensures RevokeFamily(t, f, now) != t <==> Unrevoked(t, f)
  {
    var t2 := RevokeFamily(t, f, now);
    if Unrevoked(t, f) {
      var i :| i in t && t[i].family == f && t[i].revokedAt.None?;
      assert t2[i] != t[i];
    } else {
      assert t2 == t;
    }
  }
}
