/** The storage layer in its own, imperative form: an object holding the tables, one method per transaction,
each proved to do exactly what the corresponding function of the database says.

The advisory lock has no effect inside one transaction; its role between transactions is the subject of
FamilyLock. Methods that fail restore the tables they had written, as a rollback does.
*/
module GrantStorage {
  import opened Prelude
  import opened GrantTables
  import opened GrantSteps
  import opened GrantMachine
  import opened GrantInvariants
  import opened GrantCleanup
  import opened GrantVerdicts
  import opened Batches
  import AuthCodes
  import DeviceCodes

  const BATCH_SIZE: nat := 10_000

  function OldTokens(db: Db, now: Time): set<TokenId> {
    set i | i in db.tokens && (RevokedLongAgo(db.tokens[i], now) || ExpiredLongAgo(db.tokens[i], now))
  }

  function StaleFamilies(cfg: Config, db: Db, now: Time): set<FamilyId> {
    set f | f in db.tombstones && StaleTombstone(cfg, db.tombstones[f], now)
  }

  function Members(ids: seq<UserId>): set<UserId> {
    set u | u in ids
  }

  predicate SessionOver(s: Session, now: Time) {
    s.expiresAt < now || s.revoked
  }

  function WipeAll(db: Db, gone: set<UserId>): Db {
    Db(map i | i in db.tokens && db.tokens[i].grant.user !in gone :: db.tokens[i],
       db.tombstones,
       map u | u in db.users :: if u in gone then User(Deleted, None) else db.users[u],
       map i | i in db.identities && db.identities[i] !in gone :: db.identities[i],
       map i | i in db.sessions && db.sessions[i].user !in gone :: db.sessions[i])
  }

  function DueUsers(db: Db, now: Time): set<UserId> {
    set u | u in db.users && Wipeable(db, u, now)
  }

  function OverSessions(db: Db, now: Time): set<RowId> {
    set i | i in db.sessions && SessionOver(db.sessions[i], now)
  }

  function RequestOver(now: Time): AuthCodes.Request -> bool {
    (r: AuthCodes.Request) => r.expiresAt < now - AuthCodes.EXPIRED_REQUEST_RETENTION
  }

  function DeviceOver(now: Time): DeviceCodes.Device -> bool {
    (d: DeviceCodes.Device) => d.expiresAt < now - DeviceCodes.EXPIRED_CODE_RETENTION
  }

  // ---------- what a pass leaves ----------

  /** Pending deletion, and past the scheduled date. */
  predicate PastItsDate(user: User, now: Time) {
    user.status == PendingDeletion && user.scheduledAt.Some? && user.scheduledAt.value < now
  }

  /** What happened to the users: wiped are those pending past their date that did not fail. */
  ghost predicate UsersSwept(db: Db, db2: Db, now: Time, listed: bool, failing: set<UserId>, wiped: set<UserId>) {
    && (forall u :: u in wiped <==> listed && u in db.users && u !in failing && PastItsDate(db.users[u], now))
    && (forall u :: u in db2.users <==> u in db.users)
    && (forall u :: u in db2.users ==> db2.users[u] == if u in wiped then User(Deleted, None) else db.users[u])
    && (forall i :: i in db2.identities <==> i in db.identities && db.identities[i] !in wiped)
    && (forall i :: i in db2.identities ==> db2.identities[i] == db.identities[i])
  }

  /** Expired no more than a day ago, and revoked no more than seven days ago if at all. */
  predicate StillKept(row: Token, now: Time) {
    row.expiresAt >= now - DAY && (row.revokedAt.Some? ==> row.revokedAt.value >= now - 7 * DAY)
  }

  /** A token goes with its user, or seven days after it was revoked, or a day after it expired; otherwise it stays. */
  ghost predicate TokensSwept(t: Tokens, t2: Tokens, now: Time, errors: set<Stage>, wiped: set<UserId>) {
    && (forall i :: i in t2 ==> i in t && t2[i] == t[i] && t[i].grant.user !in wiped)
    && (forall i :: i in t && t[i].grant.user !in wiped && StillKept(t[i], now) ==> i in t2)
    && (RevokedStage !in errors ==>
          forall i :: i in t2 && t2[i].revokedAt.Some? ==> t2[i].revokedAt.value >= now - 7 * DAY)
    && (ExpiredStage !in errors ==> forall i :: i in t2 ==> t2[i].expiresAt >= now - DAY)
  }

  /** A session goes with its user, or once it is revoked or has expired; otherwise it stays. */
  ghost predicate SessionsSwept(s: map<RowId, Session>, s2: map<RowId, Session>, now: Time, errors: set<Stage>,
                                wiped: set<UserId>) {
    && (forall i :: i in s2 ==> i in s && s2[i] == s[i] && s[i].user !in wiped)
    && (forall i :: i in s && s[i].user !in wiped && !s[i].revoked && s[i].expiresAt >= now ==> i in s2)
    && (SessionStage !in errors ==> forall i :: i in s2 ==> !s2[i].revoked && s2[i].expiresAt >= now)
  }

  /** A tombstone goes once it is older than any token it guards and seven days more; otherwise it stays. */
  ghost predicate TombstonesSwept(ts: Tombstones, ts2: Tombstones, ttl: Time, now: Time, errors: set<Stage>) {
    && (forall f :: f in ts2 ==> f in ts && ts2[f] == ts[f])
    && (forall f :: f in ts && ts[f].revokedAt >= now - ttl - 7 * DAY ==> f in ts2)
    && (TombstoneStage !in errors ==> forall f :: f in ts2 ==> ts2[f].revokedAt >= now - ttl - 7 * DAY)
  }

  /** An auth request goes an hour after it expired; otherwise it stays. */
  ghost predicate RequestsSwept(r: AuthCodes.Requests, r2: AuthCodes.Requests, now: Time, errors: set<Stage>) {
    && (forall i :: i in r2 ==> i in r && r2[i] == r[i])
    && (forall i :: i in r && r[i].expiresAt >= now - HOUR ==> i in r2)
    && (RequestStage !in errors ==> forall i :: i in r2 ==> r2[i].expiresAt >= now - HOUR)
  }

  /** A device code goes an hour after it expired; otherwise it stays. */
  ghost predicate DevicesSwept(d: DeviceCodes.Devices, d2: DeviceCodes.Devices, now: Time, errors: set<Stage>) {
    && (forall c :: c in d2 ==> c in d && d2[c] == d[c])
    && (forall c :: c in d && d[c].expiresAt >= now - HOUR ==> c in d2)
    && (DeviceStage !in errors ==> forall c :: c in d2 ==> d2[c].expiresAt >= now - HOUR)
  }

  /** The stages of a pass that may each go wrong on their own. */
  datatype Stage =
    | RevokedStage | ExpiredStage | SessionStage | RequestStage | DeviceStage | ListingStage | TombstoneStage

  /** What a pass has deleted. */
  datatype Swept = Swept(victims: set<TokenId>, over: set<RowId>, wiped: set<UserId>, dropped: set<FamilyId>)

  function Pass(db: Db, g: Swept): Db {
    WipeAll(Cleaned(db, g.victims, g.dropped).(sessions := db.sessions - g.over), g.wiped)
  }

  /** Nothing is deleted that is not due at `now`. */
  predicate Due(cfg: Config, db: Db, g: Swept, now: Time) {
    && g.victims <= OldTokens(db, now) && g.over <= OverSessions(db, now)
    && g.wiped <= DueUsers(db, now) && g.dropped <= StaleFamilies(cfg, db, now)
  }

  /** Every stage without an error has deleted all that is due, and every due user but the failing ones is wiped. */
  predicate Thorough(cfg: Config, db: Db, g: Swept, now: Time, errors: set<Stage>, failing: set<UserId>) {
    && TokensGone(db.tokens, g.victims, now, errors)
    && (SessionStage !in errors ==> g.over == OverSessions(db, now))
    && g.wiped == (if ListingStage in errors then {} else DueUsers(db, now) - failing)
    && (TombstoneStage !in errors ==> g.dropped == StaleFamilies(cfg, db, now))
  }

  predicate TokensGone(t: Tokens, victims: set<TokenId>, now: Time, errors: set<Stage>) {
    && (forall i :: i in t && RevokedStage !in errors && RevokedLongAgo(t[i], now) ==> i in victims)
    && (forall i :: i in t && ExpiredStage !in errors && ExpiredLongAgo(t[i], now) ==> i in victims)
  }

  lemma DueIsCleanable(cfg: Config, db: Db, g: Swept, now: Time)
    requires Due(cfg, db, g, now)
    ensures Cleanable(cfg, db, g.victims, g.dropped, now)
  {
  }

  /** The family of this row, and its children, belong to one user. */
  predicate OneOwner(t: Tokens, id: TokenId)
    requires id in t
  {
    forall i :: i in t && (t[i].family == t[id].family || t[i].parent == Some(id)) ==>
      t[i].grant.user == t[id].grant.user
  }

  /** The rows a presentation looks at belong to one user, so wiping others does not matter to it. */
  lemma WipingOthersIsInvisible(cfg: Config, db: Db, gone: set<UserId>, id: TokenId, p: Presentation, at: Time)
    requires id in db.tokens && db.tokens[id].grant.user !in gone
    requires OneOwner(db.tokens, id)
    ensures DecideRow(cfg, WipeAll(db, gone), id, p, at) == DecideRow(cfg, db, id, p, at)
  {
    var t, t2 := db.tokens, WipeAll(db, gone).tokens;
    assert Children(t2, id) == Children(t, id);
    assert forall i :: i in t && t[i].family == t[id].family ==> i in t2;
  }

  lemma OneUserPerFamily(cfg: Config, w: World, victims: set<TokenId>, id: TokenId)
    requires Inv(cfg, w) && id in w.db.tokens - victims
    ensures OneOwner(w.db.tokens - victims, id)
  {
  }

  lemma SessionsDoNotMatter(cfg: Config, db: Db, sessions: map<RowId, Session>, p: Presentation, at: Time)
    ensures Decide(cfg, db.(sessions := sessions), p, at) == Decide(cfg, db, p, at)
  {
  }

  /** A whole pass is invisible to whoever presents a token, whatever it got to delete: users on their way to deletion
      were refused before their rows went. */
  lemma PassIsInvisible(cfg: Config, w: World, g: Swept, now: Time, p: Presentation, at: Time)
    requires Sound(cfg) && Reachable(cfg, w) && Due(cfg, w.db, g, now) && now <= at && w.clock <= at
    ensures Alike(Decide(cfg, w.db, p, at), Decide(cfg, Pass(w.db, g), p, at))
  {
    var cleaned := Cleaned(w.db, g.victims, g.dropped);
    assert Alike(Decide(cfg, w.db, p, at), Decide(cfg, cleaned, p, at)) by {
      DueIsCleanable(cfg, w.db, g, now);
      CleanupIsInvisible(cfg, w, g.victims, g.dropped, now, p, at);
    }
    SessionsDoNotMatter(cfg, cleaned, w.db.sessions - g.over, p, at);
    assert Inv(cfg, w) by {
      ReachableIsSafe(cfg, w);
    }
    WipingIsInvisible(cfg, w, cleaned.(sessions := w.db.sessions - g.over), g, p, at);
  }

  lemma WipingIsInvisible(cfg: Config, w: World, cleaned: Db, g: Swept, p: Presentation, at: Time)
    requires Inv(cfg, w) && cleaned == Cleaned(w.db, g.victims, g.dropped).(sessions := cleaned.sessions)
    requires forall u :: u in g.wiped ==> u in w.db.users && w.db.users[u].status == PendingDeletion
    ensures Alike(Decide(cfg, cleaned, p, at), Decide(cfg, WipeAll(cleaned, g.wiped), p, at))
  {
    var t2 := WipeAll(cleaned, g.wiped).tokens;
    var found, found2 := FindByHash(cleaned.tokens, p.hash), FindByHash(t2, p.hash);
    if found.Some? {
      if cleaned.tokens[found.value].grant.user in g.wiped {
        assert found2.None?;
      } else {
        assert t2[found.value].hash == p.hash;
        OneUserPerFamily(cfg, w, g.victims, found.value);
        WipingOthersIsInvisible(cfg, cleaned, g.wiped, found.value, p, at);
      }
    }
  }

  lemma EveryStage(errors: map<Stage, nat>)
    ensures errors == map[] <==>
      && RevokedStage !in errors && ExpiredStage !in errors && SessionStage !in errors && RequestStage !in errors
      && DeviceStage !in errors && ListingStage !in errors && TombstoneStage !in errors
  {
    if errors != map[] {
      var stage :| stage in errors;
      assert stage.RevokedStage? || stage.ExpiredStage? || stage.SessionStage? || stage.RequestStage?
          || stage.DeviceStage? || stage.ListingStage? || stage.TombstoneStage?;
    }
  }

  function ErrorOf(errors: map<Stage, nat>, stage: Stage): Option<nat> {
    if stage in errors then Some(errors[stage]) else None
  }

  lemma SameDue(cfg: Config, db: Db, db2: Db, now: Time)
    ensures db2.users == db.users ==> DueUsers(db2, now) == DueUsers(db, now)
    ensures db2.tombstones == db.tombstones ==> StaleFamilies(cfg, db2, now) == StaleFamilies(cfg, db, now)
    ensures db2.sessions == db.sessions ==> OverSessions(db2, now) == OverSessions(db, now)
  {
  }

  /** What a pass has deleted, row by row. */
  lemma PassSweeps(cfg: Config, db: Db, g: Swept, now: Time, errors: set<Stage>, failing: set<UserId>)
    requires Due(cfg, db, g, now) && Thorough(cfg, db, g, now, errors, failing)
    ensures var db2 := Pass(db, g);
      && UsersSwept(db, db2, now, ListingStage !in errors, failing, g.wiped)
      && TokensSwept(db.tokens, db2.tokens, now, errors, g.wiped)
      && SessionsSwept(db.sessions, db2.sessions, now, errors, g.wiped)
      && TombstonesSwept(db.tombstones, db2.tombstones, cfg.ttl, now, errors)
  {
    assert forall i :: i in g.over ==> i in OverSessions(db, now);
  }

  /** The stages one after another make a pass. */
  lemma StagesMakeAPass(db: Db, g: Swept)
    ensures var stages := WipeAll(db.(tokens := db.tokens - g.victims, sessions := db.sessions - g.over), g.wiped);
      stages.(tombstones := db.tombstones - g.dropped) == Pass(db, g)
    ensures UniqueHashes(db.tokens) ==> UniqueHashes(Pass(db, g).tokens)
  {
  }

  lemma WipeOneMore(db: Db, gone: set<UserId>, u: UserId, now: Time)
    requires Wipeable(db, u, now)
    ensures Wipe(WipeAll(db, gone), u, now) == WipeAll(db, gone + {u})
  {
    var d, e := WipeAll(db, gone), WipeAll(db, gone + {u});
    if u in gone {
      assert gone + {u} == gone;
    } else {
      assert Wipe(d, u, now).tokens == e.tokens;
      assert Wipe(d, u, now).users == e.users;
      assert Wipe(d, u, now).identities == e.identities;
      assert Wipe(d, u, now).sessions == e.sessions;
    }
  }

  class Storage {
    const cfg: Config
    var tokens: Tokens
    var tombstones: Tombstones
    var users: map<UserId, User>
    var identities: map<RowId, UserId>
    var sessions: map<RowId, Session>
    var requests: AuthCodes.Requests
    var devices: DeviceCodes.Devices

    /** The unique index on the hash column. */
    ghost predicate Valid()
      reads this
    {
      UniqueHashes(tokens)
    }

    function Tables(): Db
      reads this
    {
      Db(tokens, tombstones, users, identities, sessions)
    }

    constructor (cfg: Config)
      ensures Valid() && this.cfg == cfg && Tables() == Db(map[], map[], map[], map[], map[])
    {
      this.cfg := cfg;
      tokens, tombstones, users, identities, sessions := map[], map[], map[], map[], map[];
      requests, devices := map[], map[];
    }

    // ---------- redemption ----------

    method ScopesWithin(requested: seq<Scope>, granted: seq<Scope>) returns (ok: bool)
      ensures ok <==> forall sc :: sc in requested ==> sc in granted
    {
      for k := 0 to |requested|
        invariant forall sc :: sc in requested[..k] ==> sc in granted
      {
        if requested[k] !in granted {
          return false;
        }
      }
      return true;
    }

    /** The code's sequence of refusals decides exactly who may replay. */
    method ReuseGraceDecision(id: TokenId, now: Time) returns (g: Grace)
      requires id in tokens
      ensures g == GraceIssue <==> Replayable(cfg, Tables(), tokens[id], now) && |Children(tokens, id)| < 3
      ensures g == GraceRefuse <==> Replayable(cfg, Tables(), tokens[id], now) && |Children(tokens, id)| >= 3
    {
      var rt := tokens[id];
      if cfg.grace <= 0 || rt.usedAt.None? || rt.revokedAt.None? || rt.revokedAt != rt.usedAt {
        return GraceNone;
      }
      if rt.grant.client !in cfg.graceClients {
        return GraceNone;
      }
      if now - rt.usedAt.value > cfg.grace {
        return GraceNone;
      }
      if rt.family in tombstones {
        return GraceNone;
      }
      var revokedOnPurpose := HasRevokedOnPurpose(tokens, rt.family);
      if revokedOnPurpose {
        return GraceNone;
      }
      if |Children(tokens, id)| >= MAX_CHILDREN {
        return GraceRefuse;
      }
      return GraceIssue;
    }

    /** Decides and marks; on replay it revokes and tombstones the family. The child is inserted by the caller. */
    method ConsumeRefreshToken(p: Presentation, now: Time) returns (v: Verdict)
      requires Valid()
      modifies this`tokens, this`tombstones
      ensures v == Decide(cfg, old(Tables()), p, now)
      ensures Tables() ==
        match v
        case Redeem(id) => old(Tables()).(tokens := MarkUsed(old(tokens), id, now))
        case Kill(id) => KillFamily(old(Tables()), old(tokens)[id].family,
            Tombstone(old(tokens)[id].grant.user, ReuseDetected, now))
        case _ => old(Tables())
      ensures Valid()
    {
      if !exists i :: i in tokens && tokens[i].hash == p.hash {
        return Refuse(UnknownToken);
      }
      var id: TokenId :| id in tokens && tokens[id].hash == p.hash;
      assert FindByHash(tokens, p.hash) == Some(id);
      var rt := tokens[id];
      if !p.isRefresh || p.client != rt.grant.client || p.subject != rt.grant.user {
        return Refuse(NotThisGrant);
      }
      var within := ScopesWithin(p.scopes, rt.grant.scopes);
      if !within {
        return Refuse(InvalidScope);
      }
      var why := Validate(Tables(), rt, p, now);
      if why.Some? {
        return Refuse(why.value);
      }
      if !rt.Live() || rt.family in tombstones {
        var g := ReuseGraceDecision(id, now);
        match g
        case GraceIssue => return GraceChild(id);
        case GraceRefuse => return Refuse(GraceExhausted);
        case GraceNone =>
          tokens := RevokeFamily(tokens, rt.family, now);
          tombstones := AddTombstone(tombstones, rt.family, Tombstone(rt.grant.user, ReuseDetected, now));
          return Kill(id);
      }
      tokens := MarkUsed(tokens, id, now);
      return Redeem(id);
    }

    /** The refresh grant: consume the presented token and insert its child, in one transaction. */
    method CreateAccessAndRefreshTokens(p: Presentation, sampledAt: Time, now: Time, newId: TokenId, newHash: TokenHash)
      returns (a: Answer)
      requires Valid() && newId !in tokens && forall i :: i in tokens ==> tokens[i].hash != newHash
      modifies this`tokens, this`tombstones
      ensures Tables() == Carry(cfg, old(Tables()), Decide(cfg, old(Tables()), p, now), sampledAt, now, newId, newHash)
      ensures a == Reply(Decide(cfg, old(Tables()), p, now))
      ensures Valid()
    {
      var v := ConsumeRefreshToken(p, now);
      match v
      case Kill(_) => return Refused(Replay);
      case Refuse(why) => return Refused(why);
      case Redeem(id) =>
        tokens := tokens[newId := ChildOf(cfg, tokens[id], id, newHash, sampledAt)];
        return Issued(id);
      case GraceChild(id) =>
        tokens := tokens[newId := ChildOf(cfg, tokens[id], id, newHash, sampledAt)];
        return Issued(id);
    }

    // ---------- revocation ----------

    method LookupRefreshGrant(hash: TokenHash, byId: Option<TokenId>, client: ClientId) returns (r: Option<TokenId>)
      requires Valid()
      ensures r == LookupGrant(tokens, hash, byId, client)
      ensures forall i: TokenId :: r == Some(i) <==> Names(tokens, hash, byId, client, i)
    {
      if exists i :: i in tokens && tokens[i].hash == hash && tokens[i].grant.client == client {
        var i: TokenId :| i in tokens && tokens[i].hash == hash && tokens[i].grant.client == client;
        return Some(i);
      }
      if byId.Some? && byId.value in tokens && tokens[byId.value].grant.client == client {
        return byId;
      }
      return None;
    }

    /** Revokes the whole family of the named token; reports whether any row changed, and the owner. */
    method RevokeRefreshGrant(hash: TokenHash, byId: Option<TokenId>, client: ClientId, sampledAt: Time)
      returns (revoked: bool, owner: Option<UserId>)
      requires Valid()
      modifies this`tokens, this`tombstones
      ensures Tables() == RevokeGrant(old(Tables()), hash, byId, client, sampledAt)
      ensures forall i :: Names(old(tokens), hash, byId, client, i) ==> owner == Some(old(tokens)[i].grant.user)
      ensures (forall i :: i in old(tokens) ==> !Names(old(tokens), hash, byId, client, i)) ==> owner == None
      ensures revoked <==> tokens != old(tokens)
      ensures Valid()
    {
      var r := LookupRefreshGrant(hash, byId, client);
      if r.None? {
        return false, None;
      }
      var f, user := tokens[r.value].family, tokens[r.value].grant.user;
      RevokingChanges(tokens, f, sampledAt);
      revoked := Unrevoked(tokens, f);
      tokens := RevokeFamily(tokens, f, sampledAt);
      tombstones := AddTombstone(tombstones, f, Tombstone(user, Revoked, sampledAt));
      owner := Some(user);
    }

    // ---------- accounts ----------

    method AskDeletion(u: UserId, sampledAt: Time) returns (a: DeletionAnswer)
      modifies this`users, this`tokens
      ensures Tables() == RequestDeletion(old(Tables()), u, sampledAt)
      ensures a == RequestDeletionAnswer(old(Tables()), u)
    {
      if u in users && users[u].status == Active {
        users := users[u := User(PendingDeletion, Some(sampledAt + DELETION_DELAY))];
      } else if u !in users {
        return NoSuchUser;
      } else if users[u].status != PendingDeletion {
        return AccountClosed(users[u].status);
      }
      tokens := RevokeUser(tokens, u, sampledAt);
      return Accepted;
    }

    /** Deletes a due user in one transaction; if any statement or the hook fails everything is rolled back. */
    method DeleteUser(u: UserId, now: Time, fails: bool)
      modifies this`tokens, this`users, this`identities, this`sessions
      ensures Tables() == if fails then old(Tables()) else Wipe(old(Tables()), u, now)
    {
      if !Wipeable(Tables(), u, now) {
        return;
      }
      var saved := Tables();
      users := users[u := User(Deleted, None)];
      identities := DropUserIdentities(identities, u);
      sessions := DropUserSessions(sessions, u);
      tokens := DropUserTokens(tokens, u);
      if fails {
        tokens, users, identities, sessions := saved.tokens, saved.users, saved.identities, saved.sessions;
      }
    }

    // ---------- cleanup ----------

    method ListPendingDeletion(now: Time) returns (ids: seq<UserId>)
      ensures forall u :: u in ids <==> u in DueUsers(Tables(), now)
    {
      var todo := DueUsers(Tables(), now);
      ids := [];
      while todo != {}
        invariant todo <= DueUsers(Tables(), now)
        invariant forall u :: u in ids <==> u in DueUsers(Tables(), now) - todo
        decreases todo
      {
        var u :| u in todo;
        ids := ids + [u];
        todo := todo - {u};
      }
    }

    method DeleteListedUsers(ids: seq<UserId>, now: Time, failing: set<UserId>)
      requires forall u :: u in ids ==> Wipeable(Tables(), u, now)
      modifies this`tokens, this`users, this`identities, this`sessions
      ensures Tables() == WipeAll(old(Tables()), Members(ids) - failing)
    {
      ghost var db := Tables();
      assert WipeAll(db, {}) == db;
      for k := 0 to |ids|
        invariant Tables() == WipeAll(db, Members(ids[..k]) - failing)
      {
        ghost var gone := Members(ids[..k]) - failing;
        assert Members(ids[..k + 1]) == Members(ids[..k]) + {ids[k]};
        WipeOneMore(db, gone, ids[k], now);
        assert Members(ids[..k + 1]) - failing == if ids[k] in failing then gone else gone + {ids[k]};
        DeleteUser(ids[k], now, ids[k] in failing);
      }
      assert ids[..|ids|] == ids;
    }

    method CleanTokens(now: Time, errors: map<Stage, nat>) returns (ok: bool, ghost victims: set<TokenId>)
      modifies this`tokens
      ensures tokens == old(tokens) - victims && victims <= OldTokens(old(Tables()), now)
      ensures TokensGone(old(tokens), victims, now, errors.Keys)
      ensures ok <==> RevokedStage !in errors && ExpiredStage !in errors
    {
      var n, first, second;
      tokens, n, first := DeleteInBatches(tokens, (row: Token) => RevokedLongAgo(row, now), BATCH_SIZE,
          ErrorOf(errors, RevokedStage));
      tokens, n, second := DeleteInBatches(tokens, (row: Token) => ExpiredLongAgo(row, now), BATCH_SIZE,
          ErrorOf(errors, ExpiredStage));
      victims := old(tokens).Keys - tokens.Keys;
      ok := first && second;
    }

    method CleanSessions(now: Time, errors: map<Stage, nat>) returns (ok: bool, ghost over: set<RowId>)
      modifies this`sessions
      ensures sessions == old(sessions) - over && over <= OverSessions(old(Tables()), now)
      ensures SessionStage !in errors ==> over == OverSessions(old(Tables()), now)
      ensures ok <==> SessionStage !in errors
    {
      var n;
      sessions, n, ok := DeleteInBatches(sessions, (s: Session) => SessionOver(s, now), BATCH_SIZE,
          ErrorOf(errors, SessionStage));
      over := old(sessions).Keys - sessions.Keys;
    }

    method CleanRequestsAndDevices(now: Time, errors: map<Stage, nat>) returns (ok: bool)
      modifies this`requests, this`devices
      ensures RequestsSwept(old(requests), requests, now, errors.Keys)
      ensures DevicesSwept(old(devices), devices, now, errors.Keys)
      ensures ok <==> RequestStage !in errors && DeviceStage !in errors
    {
      var n, first, second;
      requests, n, first := DeleteInBatches(requests, RequestOver(now), BATCH_SIZE, ErrorOf(errors, RequestStage));
      devices, n, second := DeleteInBatches(devices, DeviceOver(now), BATCH_SIZE, ErrorOf(errors, DeviceStage));
      ok := first && second;
    }

    method CleanTombstones(now: Time, errors: map<Stage, nat>) returns (ok: bool, ghost dropped: set<FamilyId>)
      modifies this`tombstones
      ensures tombstones == old(tombstones) - dropped && dropped <= StaleFamilies(cfg, old(Tables()), now)
      ensures TombstoneStage !in errors ==> dropped == StaleFamilies(cfg, old(Tables()), now)
      ensures ok <==> TombstoneStage !in errors
    {
      var config, n := cfg, 0;
      tombstones, n, ok := DeleteInBatches(
        tombstones, (tomb: Tombstone) => StaleTombstone(config, tomb, now), BATCH_SIZE,
            ErrorOf(errors, TombstoneStage));
      dropped := old(tombstones).Keys - tombstones.Keys;
    }

    /** Lists the users that are due, unless that fails, and deletes them one by one. A user that cannot be deleted
        does not keep the others from being deleted. */
    method CleanUsers(now: Time, errors: map<Stage, nat>, failing: set<UserId>) returns (ok: bool,
                      ghost wiped: set<UserId>)
      modifies this`tokens, this`users, this`identities, this`sessions
      ensures Tables() == WipeAll(old(Tables()), wiped)
      ensures wiped == if ListingStage in errors then {} else DueUsers(old(Tables()), now) - failing
      ensures ok <==> ListingStage !in errors && DueUsers(old(Tables()), now) !! failing
    {
      if ListingStage in errors {
        assert WipeAll(Tables(), {}) == Tables();
        return false, {};
      }
      var ids := ListPendingDeletion(now);
      assert Members(ids) == DueUsers(Tables(), now);
      wiped := Members(ids) - failing;
      ok := forall u :: u in ids ==> u !in failing;
      DeleteListedUsers(ids, now, failing);
    }

    method CleanRows(now: Time, errors: map<Stage, nat>)
      returns (ok: bool, ghost victims: set<TokenId>, ghost over: set<RowId>)
      modifies this`tokens, this`sessions
      ensures tokens == old(tokens) - victims && victims <= OldTokens(old(Tables()), now)
      ensures sessions == old(sessions) - over && over <= OverSessions(old(Tables()), now)
      ensures TokensGone(old(tokens), victims, now, errors.Keys)
      ensures SessionStage !in errors ==> over == OverSessions(old(Tables()), now)
      ensures ok <==> RevokedStage !in errors && ExpiredStage !in errors && SessionStage !in errors
    {
      var first, second;
      first, victims := CleanTokens(now, errors);
      SameDue(cfg, old(Tables()), Tables(), now);
      second, over := CleanSessions(now, errors);
      ok := first && second;
    }

    method CleanAccounts(now: Time, errors: map<Stage, nat>, failing: set<UserId>)
      returns (ok: bool, ghost wiped: set<UserId>, ghost dropped: set<FamilyId>)
      modifies this`tokens, this`users, this`identities, this`sessions, this`tombstones
      ensures Tables() == WipeAll(old(Tables()), wiped).(tombstones := old(tombstones) - dropped)
      ensures wiped == if ListingStage in errors then {} else DueUsers(old(Tables()), now) - failing
      ensures dropped <= StaleFamilies(cfg, old(Tables()), now)
      ensures TombstoneStage !in errors ==> dropped == StaleFamilies(cfg, old(Tables()), now)
      ensures ok <==> ListingStage !in errors && TombstoneStage !in errors && DueUsers(old(Tables()), now) !! failing
    {
      var first, second;
      first, wiped := CleanUsers(now, errors, failing);
      SameDue(cfg, old(Tables()), Tables(), now);
      second, dropped := CleanTombstones(now, errors);
      ok := first && second;
    }

    /** All stages in order; an error in one does not keep the others from running. */
    method RunStages(now: Time, errors: map<Stage, nat>, failing: set<UserId>) returns (ok: bool, ghost g: Swept)
      requires Valid()
      modifies this
      ensures Tables() == Pass(old(Tables()), g) && Valid()
      ensures Due(cfg, old(Tables()), g, now) && Thorough(cfg, old(Tables()), g, now, errors.Keys, failing)
      ensures RequestsSwept(old(requests), requests, now, errors.Keys)
      ensures DevicesSwept(old(devices), devices, now, errors.Keys)
      ensures ok <==> errors == map[] && DueUsers(old(Tables()), now) !! failing
    {
      ghost var db := Tables();
      var first, victims, over := CleanRows(now, errors);
      var second := CleanRequestsAndDevices(now, errors);
      SameDue(cfg, db, Tables(), now);
      var third, wiped, dropped := CleanAccounts(now, errors, failing);
      ok := first && second && third;
      EveryStage(errors);
      g := Swept(victims, over, wiped, dropped);
      StagesMakeAPass(db, g);
    }

    /** A whole pass. Each row that is due is gone if its stage reported no error, each that is not due has stayed,
        and the pass reports success exactly when no stage reported an error and no due user failed. */
    method RunAllLocked(now: Time, errors: map<Stage, nat>, failing: set<UserId>) returns (ok: bool, ghost g: Swept)
      requires Valid()
      modifies this
      ensures Tables() == Pass(old(Tables()), g) && Due(cfg, old(Tables()), g, now) && Valid()
      ensures UsersSwept(old(Tables()), Tables(), now, ListingStage !in errors, failing, g.wiped)
      ensures TokensSwept(old(tokens), tokens, now, errors.Keys, g.wiped)
      ensures SessionsSwept(old(sessions), sessions, now, errors.Keys, g.wiped)
      ensures TombstonesSwept(old(tombstones), tombstones, cfg.ttl, now, errors.Keys)
      ensures RequestsSwept(old(requests), requests, now, errors.Keys)
      ensures DevicesSwept(old(devices), devices, now, errors.Keys)
      ensures ok <==>
        && errors == map[]
        && forall u :: u in old(users) && PastItsDate(old(users)[u], now) ==> u !in failing
    {
      ghost var db := Tables();
      ok, g := RunStages(now, errors, failing);
      PassSweeps(cfg, db, g, now, errors.Keys, failing);
      assert ok <==> errors == map[] && forall u :: u in DueUsers(db, now) ==> u !in failing;
    }
  }
}
