/** Transactions side by side: rotations, revocations and deletion requests split into their statements, with the
per-family lock and the row locks between them, and everything else a database sees in between.

A rotation looks its family up, waits for the family lock, re-reads and locks its row, samples the clock, asks one
query at a time, and commits all its writes at once. A revocation looks up, locks, commits. A deletion request takes no
family lock: its UPDATE sees the rows committed when it starts, waits for those another transaction has locked, and
misses what is committed meanwhile. Logins, recoveries, cleanup deletions and the like happen at any moment.
Every step carries its time, and no transaction stays open longer than `cfg.lag`.
*/
module FamilyLock {
  import opened Prelude
  import opened GrantTables
  import opened GrantSteps
  import opened GrantMachine

  type Pid = nat

  datatype Job =
    | Rotate(p: Presentation, newId: TokenId, newHash: TokenHash)
    | Revoke(hash: TokenHash, byId: Option<TokenId>, client: ClientId)
    | Ask(user: UserId)

  /** `Judging` collects what the queries made since the clock was read have returned. */
  datatype Phase =
    | Started
    | Looked(family: FamilyId, user: UserId)
    | Locked(family: FamilyId, user: UserId, ticket: nat)
    | Reading(family: FamilyId, ticket: nat, id: TokenId, row: Token)
    | Judging(family: FamilyId, ticket: nat, id: TokenId, row: Token, now: Time,
              tombstoned: Option<bool>, onPurpose: Option<bool>, children: Option<nat>)
    | Asking(seen: set<TokenId>)
  {
    predicate Holds() {
      Locked? || Reading? || Judging?
    }

    predicate HoldsRow() {
      Reading? || Judging?
    }
  }

  /** An open transaction; it read the clock for its own timestamps when it started. */
  datatype Running = Running(job: Job, since: Time, phase: Phase)

  datatype Result = Rotated(a: Answer) | RevokedRows(changed: bool) | Asked(answer: DeletionAnswer)

  /** A finished transaction: its answer, and the family lock it held, if any. */
  datatype Entry = Entry(job: Job, since: Time, result: Result, family: Option<FamilyId>, ticket: nat)

  /** `ids`, `hashes` and `families` are all those drawn or mentioned so far. */
  datatype Sys = Sys(
    db: Db, clock: Time, locks: map<FamilyId, Pid>, jobs: map<Pid, Running>,
    ids: set<TokenId>, hashes: set<TokenHash>, families: set<FamilyId>, tickets: nat, done: seq<Entry>)

  function Begin(t: Time): Sys {
    Sys(Db(map[], map[], map[], map[], map[]), t, map[], map[], {}, {}, {}, 0, [])
  }

  datatype Step =
    | Spawn(at: Time, pid: Pid, job: Job)
    | Lookup(at: Time, pid: Pid)
    | Lock(at: Time, pid: Pid)
    | Reload(at: Time, pid: Pid)
    | Check(at: Time, pid: Pid)
    | SeeTombstone(at: Time, pid: Pid)
    | SeeOnPurpose(at: Time, pid: Pid)
    | SeeChildren(at: Time, pid: Pid)
    | Snapshot(at: Time, pid: Pid)
    | Commit(at: Time, pid: Pid)
    | Env(at: Time, op: Op)

  // ---------- when a step can happen ----------

  ghost predicate RowHeld(s: Sys, i: TokenId) {
    exists q :: q in s.jobs && s.jobs[q].phase.HoldsRow() && s.jobs[q].phase.id == i
  }

  /** A deletion request holds the user's row. */
  ghost predicate UserHeld(s: Sys, u: UserId) {
    exists q :: q in s.jobs && s.jobs[q].phase.Asking? && s.jobs[q].job == Ask(u)
  }

  /** Identifiers are fresh, and nobody names a token or row before it is committed. */
  ghost predicate Nameable(s: Sys, job: Job) {
    match job
    case Rotate(p, newId, newHash) =>
      && newId !in s.ids && newHash !in s.hashes && newHash != p.hash
      && forall q :: q in s.jobs && s.jobs[q].job.Rotate? ==> s.jobs[q].job.newHash != p.hash
    case Revoke(hash, byId, _) =>
      forall q :: q in s.jobs && s.jobs[q].job.Rotate? ==>
        s.jobs[q].job.newHash != hash && byId != Some(s.jobs[q].job.newId)
    case Ask(_) => true
  }

  /** What the surroundings do, on committed rows that no open transaction has locked. */
  ghost predicate EnvReady(cfg: Config, s: Sys, op: Op) {
    match op
    case SignUp(_, user, identity) => user !in s.db.users && identity !in s.db.identities
    case LogIn(_, user, session, _) => user in s.db.users && session !in s.db.sessions
    case Open(at, sampledAt, id, hash, family, grant) =>
      && at - cfg.lag <= sampledAt <= at
      && id !in s.ids && hash !in s.hashes && family !in s.families && grant.user in s.db.users
    case RecoverUser(_, user) => !UserHeld(s, user)
    case DisableUser(_, user) => !UserHeld(s, user)
    case WipeUser(at, now, user) =>
      && now <= at && !UserHeld(s, user)
      && forall i :: i in s.db.tokens && s.db.tokens[i].grant.user == user ==> !RowHeld(s, i)
    case CleanRevoked(at, now, victims) =>
      && now <= at
      && forall i :: i in victims ==> i in s.db.tokens && RevokedLongAgo(s.db.tokens[i], now) && !RowHeld(s, i)
    case CleanExpired(at, now, victims) =>
      && now <= at
      && forall i :: i in victims ==> i in s.db.tokens && ExpiredLongAgo(s.db.tokens[i], now) && !RowHeld(s, i)
    case CleanTombstones(at, now, dropped) =>
      && now <= at
      && forall f :: f in dropped ==> f in s.db.tombstones && StaleTombstone(cfg, s.db.tombstones[f], now)
    case _ => false
  }

  ghost predicate Ready(cfg: Config, s: Sys, step: Step) {
    match step
    case Spawn(_, pid, job) => pid !in s.jobs && Nameable(s, job)
    case Lookup(_, pid) => pid in s.jobs && s.jobs[pid].phase.Started? && !s.jobs[pid].job.Ask?
    case Lock(_, pid) => pid in s.jobs && s.jobs[pid].phase.Looked? && s.jobs[pid].phase.family !in s.locks
    case Reload(_, pid) => pid in s.jobs && s.jobs[pid].phase.Locked? && s.jobs[pid].job.Rotate?
    case Check(_, pid) => pid in s.jobs && s.jobs[pid].phase.Reading? && s.jobs[pid].job.Rotate?
    case SeeTombstone(_, pid) => pid in s.jobs && s.jobs[pid].phase.Judging? && s.jobs[pid].phase.tombstoned.None?
    case SeeOnPurpose(_, pid) =>
      && pid in s.jobs && s.jobs[pid].phase.Judging?
      && s.jobs[pid].phase.tombstoned.Some? && s.jobs[pid].phase.onPurpose.None?
    case SeeChildren(_, pid) =>
      && pid in s.jobs && s.jobs[pid].phase.Judging?
      && s.jobs[pid].phase.onPurpose.Some? && s.jobs[pid].phase.children.None?
    case Snapshot(_, pid) =>
      pid in s.jobs && s.jobs[pid].phase.Started? && s.jobs[pid].job.Ask? && !UserHeld(s, s.jobs[pid].job.user)
    case Commit(_, pid) =>
      && pid in s.jobs
      && (match s.jobs[pid].job
          case Rotate(_, _, _) => s.jobs[pid].phase.Judging? && Settled(cfg, s.jobs[pid].phase).Some?
          case Revoke(_, _, _) => s.jobs[pid].phase.Locked?
          case Ask(_) => s.jobs[pid].phase.Asking? && forall i :: i in s.jobs[pid].phase.seen ==> !RowHeld(s, i))
    case Env(at, op) => op.at == at && EnvReady(cfg, s, op)
  }

  ghost predicate Can(cfg: Config, s: Sys, step: Step) {
    && s.clock <= step.at
    && (forall q :: q in s.jobs ==> step.at <= s.jobs[q].since + cfg.lag)
    && Ready(cfg, s, step)
  }

  // ---------- what a step does ----------

  /** A replay of this row is inside the grace, as far as the row itself can tell. */
  predicate InWindow(cfg: Config, row: Token, now: Time) {
    && cfg.grace > 0
    && row.usedAt.Some? && row.revokedAt == row.usedAt
    && now <= row.usedAt.value + cfg.grace
    && row.grant.client in cfg.graceClients
  }

  /** The verdict, once the queries it depends on have been asked. */
  function Settled(cfg: Config, ph: Phase): Option<Verdict>
    requires ph.Judging?
  {
    if ph.tombstoned.None? then None
    else if ph.row.Live() && !ph.tombstoned.value then Some(Redeem(ph.id))
    else if !InWindow(cfg, ph.row, ph.now) || ph.tombstoned.value then Some(Kill(ph.id))
    else if ph.onPurpose.None? then None
    else if ph.onPurpose.value then Some(Kill(ph.id))
    else if ph.children.None? then None
    else if ph.children.value < MAX_CHILDREN then Some(GraceChild(ph.id))
    else Some(Refuse(GraceExhausted))
  }

  /** The tables after a verdict; the child takes its attributes from the row as it was read. */
  function Written(cfg: Config, db: Db, r: Running, v: Verdict): Db
    requires r.job.Rotate? && r.phase.Judging?
  {
    var ph := r.phase;
    var child := ChildOf(cfg, ph.row, ph.id, r.job.newHash, r.since);
    match v
    case Redeem(_) => db.(tokens := MarkUsed(db.tokens, ph.id, ph.now)[r.job.newId := child])
    case GraceChild(_) => db.(tokens := db.tokens[r.job.newId := child])
    case Kill(_) => KillFamily(db, ph.family, Tombstone(ph.row.grant.user, ReuseDetected, ph.now))
    case Refuse(_) => db
  }

  /** Revokes those rows of the user in a snapshot that are still there and unrevoked. */
  function RevokeSeen(t: Tokens, u: UserId, seen: set<TokenId>, now: Time): Tokens {
    map i | i in t :: if i in seen && t[i].grant.user == u then RevokeRow(t[i], now) else t[i]
  }

  function AskedDb(db: Db, u: UserId, seen: set<TokenId>, now: Time): Db {
    db.(users := RequestDeletion(db, u, now).users, tokens := RevokeSeen(db.tokens, u, seen, now))
  }

  function Move(s: Sys, pid: Pid, phase: Phase): Sys
    requires pid in s.jobs
  {
    s.(jobs := s.jobs[pid := s.jobs[pid].(phase := phase)])
  }

  function EntryOf(r: Running, result: Result): Entry {
    if r.phase.Holds()
    then Entry(r.job, r.since, result, Some(r.phase.family), r.phase.ticket)
    else Entry(r.job, r.since, result, None, 0)
  }

  /** The transaction ends with this database: its lock, if it has one, is released. */
  function Finish(s: Sys, pid: Pid, db: Db, result: Result): Sys
    requires pid in s.jobs
  {
    var r := s.jobs[pid];
    s.(db := db,
       locks := if r.phase.Holds() then s.locks - {r.phase.family} else s.locks,
       jobs := s.jobs - {pid},
       done := s.done + [EntryOf(r, result)])
  }

  ghost function Found(db: Db, job: Job): Option<TokenId>
    requires !job.Ask?
  {
    match job
    case Rotate(p, _, _) => FindByHash(db.tokens, p.hash)
    case Revoke(hash, byId, client) => LookupGrant(db.tokens, hash, byId, client)
  }

  ghost function NotFound(job: Job): Result {
    if job.Rotate? then Rotated(Refused(UnknownToken)) else RevokedRows(false)
  }

  function Unrevokeds(t: Tokens, u: UserId): set<TokenId> {
    set i | i in t && t[i].grant.user == u && t[i].revokedAt.None?
  }

  ghost function Act(cfg: Config, s: Sys, step: Step): Sys
    requires Ready(cfg, s, step)
  {
    match step
    case Spawn(at, pid, job) => Spawned(s, at, pid, job)
    case Lookup(_, pid) =>
      var r := s.jobs[pid];
      (match Found(s.db, r.job)
       case Some(id) => Move(s, pid, Looked(s.db.tokens[id].family, s.db.tokens[id].grant.user))
       case None => Finish(s, pid, s.db, NotFound(r.job)))
    case Lock(_, pid) =>
      var ph := s.jobs[pid].phase;
      Move(s, pid, Locked(ph.family, ph.user, s.tickets)).(locks := s.locks[ph.family := pid], tickets := s.tickets + 1)
    case Reload(_, pid) =>
      var r := s.jobs[pid];
      (match Found(s.db, r.job)
       case Some(id) => Move(s, pid, Reading(r.phase.family, r.phase.ticket, id, s.db.tokens[id]))
       case None => Finish(s, pid, s.db, NotFound(r.job)))
    case Check(now, pid) =>
      var r := s.jobs[pid];
      var ph := r.phase;
      (match Validate(s.db, ph.row, r.job.p, now)
       case None => Move(s, pid, Judging(ph.family, ph.ticket, ph.id, ph.row, now, None, None, None))
       case Some(why) => Finish(s, pid, s.db, Rotated(Refused(why))))
    case SeeTombstone(_, pid) =>
      var ph := s.jobs[pid].phase;
      Move(s, pid, ph.(tombstoned := Some(ph.family in s.db.tombstones)))
    case SeeOnPurpose(_, pid) =>
      var ph := s.jobs[pid].phase;
      Move(s, pid, ph.(onPurpose := Some(HasRevokedOnPurpose(s.db.tokens, ph.family))))
    case SeeChildren(_, pid) =>
      var ph := s.jobs[pid].phase;
      Move(s, pid, ph.(children := Some(|Children(s.db.tokens, ph.id)|)))
    case Snapshot(_, pid) =>
      var r := s.jobs[pid];
      if RequestDeletionAnswer(s.db, r.job.user) == Accepted
      then Move(s, pid, Asking(Unrevokeds(s.db.tokens, r.job.user)))
      else Finish(s, pid, s.db, Asked(RequestDeletionAnswer(s.db, r.job.user)))
    case Commit(_, pid) => Committed(cfg, s, pid)
    case Env(_, op) => Surrounded(cfg, s, op)
  }

  function Spawned(s: Sys, at: Time, pid: Pid, job: Job): Sys {
    s.(jobs := s.jobs[pid := Running(job, at, Started)],
       ids := match job
              case Rotate(_, newId, _) => s.ids + {newId}
              case Revoke(_, byId, _) => if byId.Some? then s.ids + {byId.value} else s.ids
              case Ask(_) => s.ids,
       hashes := match job
                 case Rotate(p, _, newHash) => s.hashes + {newHash, p.hash}
                 case Revoke(hash, _, _) => s.hashes + {hash}
                 case Ask(_) => s.hashes)
  }

  /** Writes everything the transaction decided, using only what it has read. */
  ghost function Committed(cfg: Config, s: Sys, pid: Pid): Sys
    requires Ready(cfg, s, Commit(s.clock, pid))
  {
    var r := s.jobs[pid];
    match r.job
    case Rotate(_, _, _) =>
      var v := Settled(cfg, r.phase).value;
      Finish(s, pid, Written(cfg, s.db, r, v), Rotated(Reply(v)))
    case Revoke(_, _, _) =>
      var f := r.phase.family;
      Finish(s, pid, KillFamily(s.db, f, Tombstone(r.phase.user, Revoked, r.since)),
          RevokedRows(Unrevoked(s.db.tokens, f)))
    case Ask(u) => Finish(s, pid, AskedDb(s.db, u, r.phase.seen, r.since), Asked(Accepted))
  }

  ghost function Surrounded(cfg: Config, s: Sys, op: Op): Sys {
    var s2 := s.(db := DbAfter(cfg, s.db, op));
    if op.Open?
    then s2.(ids := s.ids + {op.id}, hashes := s.hashes + {op.hash}, families := s.families + {op.family})
    else s2
  }

  ghost function Do(cfg: Config, s: Sys, step: Step): Sys
    requires Can(cfg, s, step)
  {
    Act(cfg, s, step).(clock := step.at)
  }

  // ---------- interleavings ----------

  ghost predicate Feasible(cfg: Config, s: Sys, steps: seq<Step>)
    decreases |steps|
  {
    steps == [] || (Can(cfg, s, steps[0]) && Feasible(cfg, Do(cfg, s, steps[0]), steps[1..]))
  }

  ghost function Final(cfg: Config, s: Sys, steps: seq<Step>): Sys
    requires Feasible(cfg, s, steps)
    decreases |steps|
  {
    if steps == [] then s else Final(cfg, Do(cfg, s, steps[0]), steps[1..])
  }

  /** No rotation of this user is between its clock reading and its commit, and the request has seen every unrevoked
      row the user has. */
  ghost predicate Calm(s: Sys, pid: Pid)
    requires pid in s.jobs && s.jobs[pid].job.Ask? && s.jobs[pid].phase.Asking?
  {
    && Unrevokeds(s.db.tokens, s.jobs[pid].job.user) <= s.jobs[pid].phase.seen
    && forall q :: q in s.jobs && s.jobs[q].phase.Judging? ==> s.jobs[q].phase.row.grant.user != s.jobs[pid].job.user
  }

  ghost predicate CalmStep(cfg: Config, s: Sys, step: Step)
    requires Can(cfg, s, step)
  {
    step.Commit? && s.jobs[step.pid].job.Ask? ==> Calm(s, step.pid)
  }

  /** Every deletion request commits calmly. */
  ghost predicate CalmRun(cfg: Config, s: Sys, steps: seq<Step>)
    requires Feasible(cfg, s, steps)
    decreases |steps|
  {
    steps == [] || (CalmStep(cfg, s, steps[0]) && CalmRun(cfg, Do(cfg, s, steps[0]), steps[1..]))
  }
}
