/** Whole runs of the grant store: any number of requests and cleanup deletions, in any order.

`World` adds to the database what a run has to remember to be talked about: the
clock, every identifier ever drawn, the grant each family was opened with, and
the log of all refresh tokens ever issued.
*/
module GrantMachine {
  import opened Prelude
  import opened GrantTables
  import opened GrantSteps

  /** One refresh token issued; `requested` are the scopes asked for at that redemption. */
  datatype Issue = Issue(child: TokenId, parent: Option<TokenId>, family: FamilyId, client: ClientId,
                         at: Time, requested: seq<Scope>)

  datatype World = World(
    db: Db, clock: Time, ids: set<TokenId>, hashes: set<TokenHash>,
    origins: map<FamilyId, Grant>, log: seq<Issue>)

  /** Every operation carries the instant `at` it takes effect. */
  datatype Op =
    | SignUp(at: Time, user: UserId, identity: RowId)
    | LogIn(at: Time, user: UserId, session: RowId, expiresAt: Time)
    | Open(at: Time, sampledAt: Time, id: TokenId, hash: TokenHash, family: FamilyId, grant: Grant)
    | Present(at: Time, sampledAt: Time, p: Presentation, id: TokenId, hash: TokenHash)
    | RevokeToken(at: Time, sampledAt: Time, hash: TokenHash, byId: Option<TokenId>, client: ClientId)
    | RevokeFound(at: Time, sampledAt: Time, family: FamilyId, user: UserId)  // looked up earlier; the row may be gone
    | AskDeletion(at: Time, sampledAt: Time, user: UserId)
    | RecoverUser(at: Time, user: UserId)
    | DisableUser(at: Time, user: UserId)
    | WipeUser(at: Time, sampledAt: Time, user: UserId)
    | CleanRevoked(at: Time, sampledAt: Time, victims: set<TokenId>)
    | CleanExpired(at: Time, sampledAt: Time, victims: set<TokenId>)
    | CleanTombstones(at: Time, sampledAt: Time, dropped: set<FamilyId>)

  ghost predicate Timely(cfg: Config, w: World, op: Op) {
    && w.clock <= op.at
    && (op.Open? || op.Present? || op.RevokeToken? || op.RevokeFound? || op.AskDeletion? ==>
          op.at - cfg.lag <= op.sampledAt <= op.at)
    && (op.WipeUser? || op.CleanRevoked? || op.CleanExpired? || op.CleanTombstones? ==> op.sampledAt <= op.at)
  }

  /** What the surroundings guarantee: a clock that never goes back, fresh random identifiers,
      and cleanup statements that pick only rows matching their condition (any subset: batches). */
  ghost predicate Enabled(cfg: Config, w: World, op: Op) {
    && Timely(cfg, w, op)
    && match op
       case SignUp(_, user, identity) => user !in w.db.users && identity !in w.db.identities
       case LogIn(_, user, session, _) => user in w.db.users && session !in w.db.sessions
       case Open(_, _, id, hash, family, grant) =>
         id !in w.ids && hash !in w.hashes && family !in w.origins && grant.user in w.db.users
       case Present(_, _, _, id, hash) => id !in w.ids && hash !in w.hashes
       case RevokeFound(_, _, family, user) => family in w.origins && w.origins[family].user == user
       case CleanRevoked(_, now, victims) =>
         forall i :: i in victims ==> i in w.db.tokens && RevokedLongAgo(w.db.tokens[i], now)
       case CleanExpired(_, now, victims) =>
         forall i :: i in victims ==> i in w.db.tokens && ExpiredLongAgo(w.db.tokens[i], now)
       case CleanTombstones(_, now, dropped) =>
         forall f :: f in dropped ==> f in w.db.tombstones && StaleTombstone(cfg, w.db.tombstones[f], now)
       case _ => true
  }

  ghost function DbAfter(cfg: Config, db: Db, op: Op): Db {
    match op
    case SignUp(_, user, identity) =>
      db.(users := db.users[user := User(Active, None)], identities := db.identities[identity := user])
    case LogIn(_, user, session, expiresAt) => db.(sessions := db.sessions[session := Session(user, expiresAt, false)])
    case Open(_, sampledAt, id, hash, family, grant) =>
      db.(tokens := db.tokens[id := FirstToken(cfg, family, grant, hash, sampledAt)])
    case Present(at, sampledAt, p, id, hash) => Carry(cfg, db, Decide(cfg, db, p, at), sampledAt, at, id, hash)
    case RevokeToken(_, sampledAt, hash, byId, client) => RevokeGrant(db, hash, byId, client, sampledAt)
    case RevokeFound(_, sampledAt, family, user) => KillFamily(db, family, Tombstone(user, Revoked, sampledAt))
    case AskDeletion(_, sampledAt, user) => RequestDeletion(db, user, sampledAt)
    case RecoverUser(_, user) => Recover(db, user)
    case DisableUser(_, user) => Disable(db, user)
    case WipeUser(_, now, user) => Wipe(db, user, now)
    case CleanRevoked(_, _, victims) => db.(tokens := db.tokens - victims)
    case CleanExpired(_, _, victims) => db.(tokens := db.tokens - victims)
    case CleanTombstones(_, _, dropped) => db.(tombstones := db.tombstones - dropped)
  }

  /** The log entry an operation adds, if it issues a refresh token. */
  ghost function IssueOf(cfg: Config, db: Db, op: Op): (r: Option<Issue>) {
    match op
    case Open(at, _, id, _, family, grant) => Some(Issue(id, None, family, grant.client, at, grant.scopes))
    case Present(at, _, p, id, _) =>
      var v := Decide(cfg, db, p, at);
      if v.Redeem? || v.GraceChild? then
        Some(Issue(id, Some(v.id), db.tokens[v.id].family, db.tokens[v.id].grant.client, at, p.scopes))
      else None
    case _ => None
  }

  ghost function Next(cfg: Config, w: World, op: Op): World {
    var issue := IssueOf(cfg, w.db, op);
    World(
      DbAfter(cfg, w.db, op), op.at,
      if op.Open? || op.Present? then w.ids + {op.id} else w.ids,
      if op.Open? || op.Present? then w.hashes + {op.hash} else w.hashes,
      if op.Open? then w.origins[op.family := op.grant] else w.origins,
      if issue.Some? then w.log + [issue.value] else w.log)
  }

  // ---------- runs ----------

  ghost predicate Runnable(cfg: Config, w: World, ops: seq<Op>)
    decreases |ops|
  {
    ops == [] || (Enabled(cfg, w, ops[0]) && Runnable(cfg, Next(cfg, w, ops[0]), ops[1..]))
  }

  ghost function After(cfg: Config, w: World, ops: seq<Op>): World
    decreases |ops|
  {
    if ops == [] then w else After(cfg, Next(cfg, w, ops[0]), ops[1..])
  }

  ghost function Start(t: Time): World {
    World(Db(map[], map[], map[], map[], map[]), t, {}, {}, map[], [])
  }

  /** Some run from an empty database reaches this world. */
  ghost predicate Reachable(cfg: Config, w: World) {
    exists t, ops :: Runnable(cfg, Start(t), ops) && w == After(cfg, Start(t), ops)
  }

  lemma RunCons(cfg: Config, w: World, op: Op, ops: seq<Op>)
    ensures Runnable(cfg, w, [op] + ops) <==> Enabled(cfg, w, op) && Runnable(cfg, Next(cfg, w, op), ops)
    ensures After(cfg, w, [op] + ops) == After(cfg, Next(cfg, w, op), ops)
  {
    assert ([op] + ops)[1..] == ops;
  }

  lemma {:induction false} RunsJoin(cfg: Config, w: World, ops: seq<Op>, more: seq<Op>)
    ensures Runnable(cfg, w, ops + more) <==> Runnable(cfg, w, ops) && Runnable(cfg, After(cfg, w, ops), more)
    ensures After(cfg, w, ops + more) == After(cfg, After(cfg, w, ops), more)
    decreases |ops|
  {
    if ops == [] {
      assert ops + more == more;
    } else {
      var op, rest := ops[0], ops[1..];
      assert ops == [op] + rest && ops + more == [op] + (rest + more);
      RunCons(cfg, w, op, rest);
      RunCons(cfg, w, op, rest + more);
      RunsJoin(cfg, Next(cfg, w, op), rest, more);
    }
  }

  lemma AfterLast(cfg: Config, w: World, ops: seq<Op>, op: Op)
    ensures After(cfg, w, ops + [op]) == Next(cfg, After(cfg, w, ops), op)
    ensures Runnable(cfg, w, ops + [op]) <==> Runnable(cfg, w, ops) && Enabled(cfg, After(cfg, w, ops), op)
  {
    RunsJoin(cfg, w, ops, [op]);
    RunCons(cfg, After(cfg, w, ops), op, []);
    assert [op] + [] == [op];
  }
}
