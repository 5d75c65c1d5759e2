/** How the shadow follows the system, and what the two keep: facts about the databases, and books about names, answers
and order. Each part of the invariant has its own small lemmas on how steps keep it. */
module FamilyBooks {
  import opened Prelude
  import opened GrantTables
  import opened GrantSteps
  import opened GrantMachine
  import opened GrantInvariants
  import opened FamilyLock
  import opened FamilyShadow

  // ---------- how the shadow follows ----------

  ghost function Append(cfg: Config, h: Shadow, op: Op): Shadow {
    h.(w := Next(cfg, h.w, op), trace := h.trace + [op])
  }

  /** A transaction ends with this operation. */
  ghost function EndWith(cfg: Config, h: Shadow, op: Op): Shadow {
    Append(cfg, h, op).(positions := h.positions + [|h.trace|])
  }

  /** The atomic transaction a job stands for, at a given instant. */
  function OpOf(r: Running, at: Time): Op {
    match r.job
    case Rotate(p, newId, newHash) => Present(at, r.since, p, newId, newHash)
    case Revoke(hash, byId, client) => RevokeToken(at, r.since, hash, byId, client)
    case Ask(user) => AskDeletion(at, r.since, user)
  }

  /** A revocation ends the family it has found, even if cleanup has deleted the row it was named by. */
  ghost function RevokeOp(db: Db, r: Running, at: Time): Op
    requires r.job.Revoke? && r.phase.Locked?
  {
    var found := Found(db, r.job);
    if found.Some? && db.tokens[found.value].family == r.phase.family &&
        db.tokens[found.value].grant.user == r.phase.user
    then OpOf(r, at)
    else RevokeFound(at, r.since, r.phase.family, r.phase.user)
  }

  ghost function Follow(cfg: Config, s: Sys, h: Shadow, step: Step): Shadow
    requires Can(cfg, s, step)
  {
    match step
    case Lookup(at, pid) => if Found(s.db, s.jobs[pid].job).None? then EndWith(cfg, h, OpOf(s.jobs[pid], at)) else h
    case Reload(at, pid) => if Found(s.db, s.jobs[pid].job).None? then EndWith(cfg, h, OpOf(s.jobs[pid], at)) else h
    case Check(at, pid) =>
      var r := s.jobs[pid];
      if Validate(s.db, r.phase.row, r.job.p, at).Some? then EndWith(cfg, h, OpOf(r, at))
      else Append(cfg, h, OpOf(r, at)).(
             verdicts := h.verdicts[pid := Decide(cfg, h.w.db, r.job.p, at)],
             places := h.places[pid := |h.trace|])
    case Snapshot(at, pid) =>
      if RequestDeletionAnswer(s.db, s.jobs[pid].job.user) == Accepted then h
          else EndWith(cfg, h, OpOf(s.jobs[pid], at))
    case Commit(at, pid) =>
      var r := s.jobs[pid];
      (match r.job
       case Rotate(_, _, _) => if pid in h.places then h.(positions := h.positions + [h.places[pid]]) else h
       case Revoke(_, _, _) => EndWith(cfg, h, RevokeOp(s.db, r, at))
       case Ask(_) => EndWith(cfg, h, OpOf(r, at)))
    case Env(_, op) => Append(cfg, h, op)
    case _ => h
  }

  // ---------- the invariant, part by part ----------

  ghost predicate Linked(cfg: Config, start: Time, clock: Time, h: Shadow) {
    && Runnable(cfg, Start(start), h.trace)
    && h.w == After(cfg, Start(start), h.trace)
    && h.w.clock <= clock
  }

  /** A rotation that has looked its family up and has not yet re-read its row. */
  predicate Waits(r: Running) {
    r.job.Rotate? && (r.phase.Looked? || r.phase.Locked?)
  }

  /** The presented token can only be found in the family it was looked up in. */
  ghost predicate HashHome(db: Db, r: Running)
    requires Waits(r)
  {
    forall i :: i in db.tokens && db.tokens[i].hash == r.job.p.hash ==> db.tokens[i].family == r.phase.family
  }

  ghost predicate JobOk(clock: Time, db: Db, origins: map<FamilyId, Grant>, r: Running) {
    && r.since <= clock
    && (r.phase.Looked? || r.phase.Locked? ==>
          && !r.job.Ask? && r.phase.family in origins && r.phase.user == origins[r.phase.family].user
          && (r.job.Rotate? ==> HashHome(db, r)))
    && (r.phase.HoldsRow() ==> r.job.Rotate? && RowThere(db, r.phase) && r.phase.row.hash == r.job.p.hash)
    && (r.phase.Judging? ==> r.since <= r.phase.now <= clock && r.job.p.subject == r.phase.row.grant.user)
    && (r.phase.Asking? ==> r.job.Ask? && RequestDeletionAnswer(db, r.job.user) == Accepted)
  }

  predicate BothAsk(r: Running, r2: Running) {
    r.phase.Asking? && r2.phase.Asking? && r.job == r2.job
  }

  ghost predicate JobsOk(clock: Time, db: Db, origins: map<FamilyId, Grant>, jobs: map<Pid, Running>) {
    && (forall q :: q in jobs ==> JobOk(clock, db, origins, jobs[q]))
    && (forall q, r :: q in jobs && r in jobs && BothAsk(jobs[q], jobs[r]) ==> q == r)
  }

  ghost predicate SteadyOk(cfg: Config, db: Db, jobs: map<Pid, Running>, verdicts: map<Pid, Verdict>) {
    forall q :: q in jobs && jobs[q].phase.Judging? ==> q in verdicts && Steady(cfg, db, jobs[q].phase, verdicts[q])
  }

  predicate Names(job: Job, hash: TokenHash, id: TokenId) {
    match job
    case Rotate(p, _, _) => p.hash == hash
    case Revoke(h, byId, _) => h == hash || byId == Some(id)
    case Ask(_) => false
  }

  /** Reserved identifiers are out of use until their token is issued. */
  ghost predicate NameOk(s: Sys, w: World, r: Running) {
    r.job.Rotate? ==>
      && r.job.newId in s.ids && r.job.newHash in s.hashes && r.job.newId !in s.db.tokens
      && (!r.phase.Judging? ==> r.job.newId !in w.ids && r.job.newHash !in w.hashes)
  }

  predicate Apart(job: Job, job2: Job) {
    job.Rotate? && job2.Rotate? ==> job.newId != job2.newId && job.newHash != job2.newHash
  }

  predicate Unnamed(job: Job, job2: Job) {
    job2.Rotate? ==> !Names(job, job2.newHash, job2.newId)
  }

  predicate Mentioned(s: Sys, job: Job) {
    match job
    case Rotate(p, _, _) => p.hash in s.hashes
    case Revoke(hash, byId, _) => hash in s.hashes && (byId.Some? ==> byId.value in s.ids)
    case Ask(_) => true
  }

  ghost predicate NamesOk(s: Sys, w: World) {
    && w.ids <= s.ids && w.hashes <= s.hashes && w.origins.Keys == s.families && s.db.tokens.Keys <= s.ids
    && (forall q :: q in s.jobs ==> NameOk(s, w, s.jobs[q]) && Mentioned(s, s.jobs[q].job))
    && (forall q, r :: q in s.jobs && r in s.jobs && q != r ==> Apart(s.jobs[q].job, s.jobs[r].job))
    && (forall q, r :: q in s.jobs && r in s.jobs ==> Unnamed(s.jobs[q].job, s.jobs[r].job))
  }

  // ---------- answers and order ----------

  ghost function DbAt(cfg: Config, start: Time, trace: seq<Op>, k: nat): Db
    requires k <= |trace|
  {
    After(cfg, Start(start), trace[..k]).db
  }

  /** The atomic transaction `op`, run on `db`, gives this answer. */
  ghost predicate AnswerAt(cfg: Config, db: Db, op: Op, e: Entry) {
    match e.job
    case Rotate(p, newId, newHash) =>
      && op == Present(op.at, e.since, p, newId, newHash)
      && var v := Decide(cfg, db, p, op.at);
         && e.result == Rotated(Reply(v))
         && (v.Redeem? || v.GraceChild? ==> e.family == Some(db.tokens[v.id].family))
    case Revoke(hash, byId, client) =>
      && (|| op == RevokeToken(op.at, e.since, hash, byId, client)
          || (op.RevokeFound? && op.sampledAt == e.since && e.family == Some(op.family)))
      && e.result == RevokedRows(DbAfter(cfg, db, op).tokens != db.tokens)
    case Ask(user) => op == AskDeletion(op.at, e.since, user) && e.result == Asked(RequestDeletionAnswer(db, user))
  }

  ghost predicate Answered(cfg: Config, start: Time, trace: seq<Op>, k: nat, e: Entry) {
    k < |trace| && AnswerAt(cfg, DbAt(cfg, start, trace, k), trace[k], e)
  }

  ghost predicate JudgedAt(cfg: Config, start: Time, trace: seq<Op>, k: nat, r: Running, v: Verdict) {
    && r.job.Rotate? && r.phase.Judging? && k < |trace|
    && trace[k] == OpOf(r, r.phase.now)
    && Decide(cfg, DbAt(cfg, start, trace, k), r.job.p, r.phase.now) == v
    && (v.Redeem? || v.GraceChild? ==> DbAt(cfg, start, trace, k).tokens[v.id].family == r.phase.family)
  }

  ghost predicate AnswersOk(cfg: Config, start: Time, done: seq<Entry>, jobs: map<Pid, Running>, h: Shadow) {
    && |h.positions| == |done|
    && (forall k :: 0 <= k < |done| ==> Answered(cfg, start, h.trace, h.positions[k], done[k]))
    && (forall q :: q in jobs && jobs[q].phase.Judging? ==>
          q in h.verdicts && q in h.places && JudgedAt(cfg, start, h.trace, h.places[q], jobs[q], h.verdicts[q]))
  }

  /** On each family, transactions are in the run in the order in which they got the lock. */
  ghost predicate InLockOrder(done: seq<Entry>, positions: seq<nat>) {
    |positions| == |done| &&
    forall j, k :: 0 <= j < k < |done| && done[j].family.Some? && done[j].family == done[k].family ==>
      done[j].ticket < done[k].ticket && positions[j] < positions[k]
  }

  /** Comes after everything finished in its family. */
  ghost predicate AfterDone(done: seq<Entry>, positions: seq<nat>, f: FamilyId, ticket: nat, place: nat)
    requires |positions| == |done|
  {
    forall k :: 0 <= k < |done| && done[k].family == Some(f) ==> done[k].ticket < ticket && positions[k] < place
  }

  ghost predicate HolderOk(done: seq<Entry>, tickets: nat, h: Shadow, q: Pid, ph: Phase)
    requires |h.positions| == |done|
  {
    ph.Holds() ==>
      && ph.ticket < tickets
      && AfterDone(done, h.positions, ph.family, ph.ticket, |h.trace|)
      && (ph.Judging? ==> q in h.places && AfterDone(done, h.positions, ph.family, ph.ticket, h.places[q]))
  }

  ghost predicate OrderOk(done: seq<Entry>, jobs: map<Pid, Running>, tickets: nat, h: Shadow) {
    && InLockOrder(done, h.positions)
    && (forall k :: 0 <= k < |done| ==>
         h.positions[k] < |h.trace| && (done[k].family.Some? ==> done[k].ticket < tickets))
    && (forall q :: q in jobs ==> HolderOk(done, tickets, h, q, jobs[q].phase))
  }

  /** What is in the databases. */
  ghost predicate Facts(cfg: Config, start: Time, s: Sys, h: Shadow) {
    && Linked(cfg, start, s.clock, h)
    && Agree(cfg, s, h)
    && LocksOk(s.jobs, s.locks)
    && JobsOk(s.clock, s.db, h.w.origins, s.jobs)
    && SteadyOk(cfg, s.db, s.jobs, h.verdicts)
  }

  /** What has been said about it. */
  ghost predicate Books(cfg: Config, start: Time, s: Sys, h: Shadow) {
    && NamesOk(s, h.w)
    && AnswersOk(cfg, start, s.done, s.jobs, h)
    && OrderOk(s.done, s.jobs, s.tickets, h)
  }

  ghost predicate Good(cfg: Config, start: Time, s: Sys, h: Shadow) {
    Facts(cfg, start, s, h) && Books(cfg, start, s, h)
  }

  lemma LinkedIsSafe(cfg: Config, start: Time, clock: Time, h: Shadow)
    requires Sound(cfg) && Linked(cfg, start, clock, h)
    ensures Inv(cfg, h.w) && Reachable(cfg, h.w)
  {
    assert Reachable(cfg, h.w);
    ReachableIsSafe(cfg, h.w);
  }

  lemma LinkedAppend(cfg: Config, start: Time, clock: Time, h: Shadow, op: Op)
    requires Linked(cfg, start, clock, h) && Enabled(cfg, h.w, op)
    ensures Linked(cfg, start, op.at, Append(cfg, h, op))
  {
    AfterLast(cfg, Start(start), h.trace, op);
  }

  /** Answers given stay right when the run grows. */
  lemma AnswersStay(cfg: Config, start: Time, trace: seq<Op>, op: Op, k: nat)
    requires k < |trace|
    ensures (trace + [op])[k] == trace[k] && DbAt(cfg, start, trace + [op], k) == DbAt(cfg, start, trace, k)
  {
    assert (trace + [op])[..k] == trace[..k];
  }

  lemma LastAnswer(cfg: Config, start: Time, clock: Time, h: Shadow, op: Op)
    requires Linked(cfg, start, clock, h)
    ensures (h.trace + [op])[|h.trace|] == op && DbAt(cfg, start, h.trace + [op], |h.trace|) == h.w.db
  {
    assert (h.trace + [op])[..|h.trace|] == h.trace;
  }

  // ---------- keeping the locks ----------

  lemma LocksMove(jobs: map<Pid, Running>, locks: map<FamilyId, Pid>, pid: Pid, r: Running)
    requires LocksOk(jobs, locks)
    requires pid in jobs ==> jobs[pid].phase.Holds() == r.phase.Holds()
    requires pid !in jobs ==> !r.phase.Holds()
    requires r.phase.Holds() ==> r.phase.family == jobs[pid].phase.family
    ensures LocksOk(jobs[pid := r], locks)
  {
  }

  lemma LocksTaken(jobs: map<Pid, Running>, locks: map<FamilyId, Pid>, pid: Pid, r: Running)
    requires LocksOk(jobs, locks) && pid in jobs && !jobs[pid].phase.Holds()
    requires r.phase.Holds() && r.phase.family !in locks
    ensures LocksOk(jobs[pid := r], locks[r.phase.family := pid])
  {
  }

  lemma LocksFinish(s: Sys, pid: Pid, db: Db, result: Result)
    requires LocksOk(s.jobs, s.locks) && pid in s.jobs
    ensures LocksOk(Finish(s, pid, db, result).jobs, Finish(s, pid, db, result).locks)
  {
  }

  // ---------- keeping answers and order ----------

  /** Another stage of the same judging: only what the queries returned may differ. */
  predicate SameJudging(r: Running, r2: Running) {
    && r.phase.Judging? && r2.phase.Judging? && r2.job == r.job && r2.since == r.since
    && r2.phase == r.phase.(tombstoned := r2.phase.tombstoned, onPurpose := r2.phase.onPurpose,
         children := r2.phase.children)
  }

  lemma AnswersMove(cfg: Config, start: Time, done: seq<Entry>, jobs: map<Pid, Running>, h: Shadow, pid: Pid,
                    r: Running)
    requires AnswersOk(cfg, start, done, jobs, h)
    requires r.phase.Judging? ==> pid in jobs && SameJudging(jobs[pid], r)
    ensures AnswersOk(cfg, start, done, jobs[pid := r], h)
  {
  }

  lemma AnswersAppend(cfg: Config, start: Time, done: seq<Entry>, jobs: map<Pid, Running>, h: Shadow, op: Op)
    requires AnswersOk(cfg, start, done, jobs, h)
    ensures AnswersOk(cfg, start, done, jobs, Append(cfg, h, op))
  {
    forall k | 0 <= k < |done| ensures Answered(cfg, start, h.trace + [op], h.positions[k], done[k]) {
      AnswersStay(cfg, start, h.trace, op, h.positions[k]);
    }
    forall q | q in jobs && jobs[q].phase.Judging?
      ensures JudgedAt(cfg, start, h.trace + [op], h.places[q], jobs[q], h.verdicts[q])
    {
      AnswersStay(cfg, start, h.trace, op, h.places[q]);
    }
  }

  /** One more finished transaction, answered at position `k` of the run. */
  lemma AnswersFinish(cfg: Config, start: Time, s: Sys, h: Shadow, pid: Pid, db: Db, result: Result, k: nat)
    requires AnswersOk(cfg, start, s.done, s.jobs, h) && pid in s.jobs
    requires Answered(cfg, start, h.trace, k, EntryOf(s.jobs[pid], result))
    ensures var s2 := Finish(s, pid, db, result);
      AnswersOk(cfg, start, s2.done, s2.jobs, h.(positions := h.positions + [k]))
  {
  }

  lemma AnswersEnd(cfg: Config, start: Time, s: Sys, h: Shadow, pid: Pid, db: Db, result: Result, op: Op)
    requires Linked(cfg, start, s.clock, h) && AnswersOk(cfg, start, s.done, s.jobs, h) && pid in s.jobs
    requires AnswerAt(cfg, h.w.db, op, EntryOf(s.jobs[pid], result))
    ensures var s2 := Finish(s, pid, db, result);
      AnswersOk(cfg, start, s2.done, s2.jobs, EndWith(cfg, h, op))
  {
    AnswersAppend(cfg, start, s.done, s.jobs, h, op);
    LastAnswer(cfg, start, s.clock, h, op);
    AnswersFinish(cfg, start, s, Append(cfg, h, op), pid, db, result, |h.trace|);
  }

  lemma OrderMove(done: seq<Entry>, jobs: map<Pid, Running>, tickets: nat, h: Shadow, pid: Pid, r: Running)
    requires OrderOk(done, jobs, tickets, h)
    requires r.phase.Holds() ==>
      pid in jobs && jobs[pid].phase.Holds() && r.phase.family == jobs[pid].phase.family &&
          r.phase.ticket == jobs[pid].phase.ticket
    requires r.phase.Judging? ==> jobs[pid].phase.Judging?
    ensures OrderOk(done, jobs[pid := r], tickets, h)
  {
    assert forall q :: q in jobs ==> HolderOk(done, tickets, h, q, jobs[q].phase);
  }

  lemma OrderTicket(done: seq<Entry>, jobs: map<Pid, Running>, tickets: nat, h: Shadow, pid: Pid, r: Running)
    requires OrderOk(done, jobs, tickets, h) && r.phase.Locked? && r.phase.ticket == tickets
    ensures OrderOk(done, jobs[pid := r], tickets + 1, h)
  {
    forall q | q in jobs ensures HolderOk(done, tickets + 1, h, q, jobs[q].phase) {
      assert HolderOk(done, tickets, h, q, jobs[q].phase);
    }
  }

  lemma OrderAppend(cfg: Config, done: seq<Entry>, jobs: map<Pid, Running>, tickets: nat, h: Shadow, op: Op)
    requires OrderOk(done, jobs, tickets, h)
    ensures OrderOk(done, jobs, tickets, Append(cfg, h, op))
  {
    forall q | q in jobs ensures HolderOk(done, tickets, Append(cfg, h, op), q, jobs[q].phase) {
      assert HolderOk(done, tickets, h, q, jobs[q].phase);
    }
  }

  /** The next entry of a family comes after all others, and others do not wait in that family. */
  lemma OrderFinish(s: Sys, h: Shadow, pid: Pid, db: Db, result: Result, k: nat)
    requires OrderOk(s.done, s.jobs, s.tickets, h) && LocksOk(s.jobs, s.locks) && pid in s.jobs && k < |h.trace|
    requires s.jobs[pid].phase.Holds() ==>
      AfterDone(s.done, h.positions, s.jobs[pid].phase.family, s.jobs[pid].phase.ticket, k)
    ensures var s2 := Finish(s, pid, db, result);
      OrderOk(s2.done, s2.jobs, s2.tickets, h.(positions := h.positions + [k]))
  {
    var s2, h2 := Finish(s, pid, db, result), h.(positions := h.positions + [k]);
    assert HolderOk(s.done, s.tickets, h, pid, s.jobs[pid].phase);
    forall q | q in s2.jobs ensures HolderOk(s2.done, s2.tickets, h2, q, s2.jobs[q].phase) {
      assert HolderOk(s.done, s.tickets, h, q, s.jobs[q].phase);
    }
  }

  lemma OrderEnd(cfg: Config, s: Sys, h: Shadow, pid: Pid, db: Db, result: Result, op: Op)
    requires OrderOk(s.done, s.jobs, s.tickets, h) && LocksOk(s.jobs, s.locks) && pid in s.jobs
    ensures var s2 := Finish(s, pid, db, result);
      OrderOk(s2.done, s2.jobs, s2.tickets, EndWith(cfg, h, op))
  {
    assert HolderOk(s.done, s.tickets, h, pid, s.jobs[pid].phase);
    OrderAppend(cfg, s.done, s.jobs, s.tickets, h, op);
    OrderFinish(s, Append(cfg, h, op), pid, db, result, |h.trace|);
  }

  // ---------- keeping the jobs and their names ----------

  lemma JobsMove(clock: Time, clock2: Time, db: Db, origins: map<FamilyId, Grant>, jobs: map<Pid, Running>, pid: Pid,
                 r: Running)
    requires JobsOk(clock, db, origins, jobs) && clock <= clock2 && JobOk(clock2, db, origins, r)
    requires r.phase.Asking? ==> forall q :: q in jobs && jobs[q].phase.Asking? ==> jobs[q].job != r.job
    ensures JobsOk(clock2, db, origins, jobs[pid := r])
  {
    forall q | q in jobs ensures JobOk(clock2, db, origins, jobs[q]) {
      assert JobOk(clock, db, origins, jobs[q]);
    }
  }

  /** The rows the others hold, and the users they hold, are left alone. */
  ghost predicate LeavesAlone(db: Db, db2: Db, jobs: map<Pid, Running>) {
    && (forall q :: q in jobs && jobs[q].phase.HoldsRow() && RowThere(db, jobs[q].phase) ==>
         RowThere(db2, jobs[q].phase))
    && (forall q :: q in jobs && Waits(jobs[q]) && HashHome(db, jobs[q]) ==> HashHome(db2, jobs[q]))
    && (forall q :: q in jobs && jobs[q].phase.Asking? && jobs[q].job.Ask? ==>
          RequestDeletionAnswer(db2, jobs[q].job.user) == RequestDeletionAnswer(db, jobs[q].job.user))
  }

  lemma JobsLeftAlone(clock: Time, clock2: Time, db: Db, db2: Db, origins: map<FamilyId, Grant>, origins2: map<FamilyId,
                      Grant>,
                      jobs: map<Pid, Running>, jobs2: map<Pid, Running>)
    requires JobsOk(clock, db, origins, jobs) && clock <= clock2
    requires jobs2.Keys <= jobs.Keys && forall q :: q in jobs2 ==> jobs2[q] == jobs[q]
    requires LeavesAlone(db, db2, jobs2)
    requires forall f :: f in origins ==> f in origins2 && origins2[f] == origins[f]
    ensures JobsOk(clock2, db2, origins2, jobs2)
  {
    forall q | q in jobs2 ensures JobOk(clock2, db2, origins2, jobs2[q]) {
      assert JobOk(clock, db, origins, jobs[q]);
    }
  }

  lemma NamesMove(s: Sys, w: World, pid: Pid, phase: Phase)
    requires NamesOk(s, w) && pid in s.jobs && (s.jobs[pid].phase.Judging? <==> phase.Judging?)
    ensures NamesOk(Move(s, pid, phase), w)
  {
    var s2 := Move(s, pid, phase);
    forall q | q in s2.jobs ensures NameOk(s2, w, s2.jobs[q]) && Mentioned(s2, s2.jobs[q].job) {
      assert NameOk(s, w, s.jobs[q]) && Mentioned(s, s.jobs[q].job);
    }
    forall q, r | q in s2.jobs && r in s2.jobs ensures Unnamed(s2.jobs[q].job, s2.jobs[r].job) {
      assert Unnamed(s.jobs[q].job, s.jobs[r].job);
    }
    forall q, r | q in s2.jobs && r in s2.jobs && q != r ensures Apart(s2.jobs[q].job, s2.jobs[r].job) {
      assert Apart(s.jobs[q].job, s.jobs[r].job);
    }
  }

  /** The shadow draws at most the identifiers this job had reserved, and the database gets at most its new row. */
  ghost predicate DrawsOnly(s: Sys, w: World, db2: Db, w2: World, job: Job) {
    && w2.origins == w.origins
    && w2.ids <= w.ids + (if job.Rotate? then {job.newId} else {})
    && w2.hashes <= w.hashes + (if job.Rotate? then {job.newHash} else {})
    && db2.tokens.Keys <= s.db.tokens.Keys + (if job.Rotate? then {job.newId} else {})
  }

  lemma NamesFinish(s: Sys, w: World, pid: Pid, db2: Db, w2: World, result: Result)
    requires NamesOk(s, w) && pid in s.jobs && DrawsOnly(s, w, db2, w2, s.jobs[pid].job)
    ensures NamesOk(Finish(s, pid, db2, result), w2)
  {
    var s2 := Finish(s, pid, db2, result);
    assert NameOk(s, w, s.jobs[pid]);
    forall q | q in s2.jobs ensures NameOk(s2, w2, s2.jobs[q]) && Mentioned(s2, s2.jobs[q].job) {
      assert NameOk(s, w, s.jobs[q]) && Mentioned(s, s.jobs[q].job) && Apart(s.jobs[q].job, s.jobs[pid].job);
    }
    forall q, r | q in s2.jobs && r in s2.jobs ensures Unnamed(s2.jobs[q].job, s2.jobs[r].job) {
      assert Unnamed(s.jobs[q].job, s.jobs[r].job);
    }
    forall q, r | q in s2.jobs && r in s2.jobs && q != r ensures Apart(s2.jobs[q].job, s2.jobs[r].job) {
      assert Apart(s.jobs[q].job, s.jobs[r].job);
    }
  }

  lemma NamesJudging(s: Sys, w: World, pid: Pid, phase: Phase, w2: World)
    requires NamesOk(s, w) && pid in s.jobs && s.jobs[pid].job.Rotate? && phase.Judging?
    requires DrawsOnly(s, w, s.db, w2, s.jobs[pid].job)
    ensures NamesOk(Move(s, pid, phase), w2)
  {
    var s2 := Move(s, pid, phase);
    assert NameOk(s, w, s.jobs[pid]);
    forall q | q in s2.jobs ensures NameOk(s2, w2, s2.jobs[q]) && Mentioned(s2, s2.jobs[q].job) {
      assert NameOk(s, w, s.jobs[q]) && Mentioned(s, s.jobs[q].job);
      assert q != pid ==> Apart(s.jobs[q].job, s.jobs[pid].job);
    }
    forall q, r | q in s2.jobs && r in s2.jobs ensures Unnamed(s2.jobs[q].job, s2.jobs[r].job) {
      assert Unnamed(s.jobs[q].job, s.jobs[r].job);
    }
    forall q, r | q in s2.jobs && r in s2.jobs && q != r ensures Apart(s2.jobs[q].job, s2.jobs[r].job) {
      assert Apart(s.jobs[q].job, s.jobs[r].job);
    }
  }

  lemma NamesSpawn(s: Sys, w: World, at: Time, pid: Pid, job: Job)
    requires NamesOk(s, w) && pid !in s.jobs && Nameable(s, job)
    ensures NamesOk(Spawned(s, at, pid, job), w)
  {
    var s2 := Spawned(s, at, pid, job);
    forall q | q in s2.jobs ensures NameOk(s2, w, s2.jobs[q]) && Mentioned(s2, s2.jobs[q].job) {
      if q != pid {
        assert NameOk(s, w, s.jobs[q]) && Mentioned(s, s.jobs[q].job);
      }
    }
    forall q, r | q in s2.jobs && r in s2.jobs ensures Unnamed(s2.jobs[q].job, s2.jobs[r].job) {
      if q != pid && r != pid {
        assert Unnamed(s.jobs[q].job, s.jobs[r].job);
      } else if q != pid {
        assert Mentioned(s, s.jobs[q].job);
      }
    }
    forall q, r | q in s2.jobs && r in s2.jobs && q != r ensures Apart(s2.jobs[q].job, s2.jobs[r].job) {
      if q != pid && r != pid {
        assert Apart(s.jobs[q].job, s.jobs[r].job);
      } else if q != pid {
        assert NameOk(s, w, s.jobs[q]);
      } else {
        assert NameOk(s, w, s.jobs[r]);
      }
    }
  }

  // ---------- keeping agreement ----------

  /** Neither database changes, nor who is judging what. */
  lemma AgreeStays(cfg: Config, s: Sys, h: Shadow, s2: Sys, h2: Shadow)
    requires Agree(cfg, s, h) && s2.db == s.db && h2.w.db == h.w.db
    requires forall f :: Judged(s2, f) == Judged(s, f)
    requires forall q :: q in s2.jobs && s2.jobs[q].phase.Judging? ==>
      q in s.jobs && SameJudging(s.jobs[q], s2.jobs[q]) && q in h2.verdicts && q in h.verdicts &&
          h2.verdicts[q] == h.verdicts[q]
    ensures Agree(cfg, s2, h2)
  {
    forall f | !Judged(s2, f) ensures SameFamily(h2.w.db, s2.db, f) {
      assert !Judged(s, f);
    }
    forall q | q in s2.jobs && s2.jobs[q].phase.Judging?
      ensures JudgedOk(cfg, s2.db, s2.jobs[q], h2.verdicts[q], h2.w.db) {
      assert JudgedOk(cfg, s.db, s.jobs[q], h.verdicts[q], h.w.db);
    }
  }

  lemma AgreeMove(cfg: Config, s: Sys, h: Shadow, pid: Pid, phase: Phase, at: Time)
    requires Agree(cfg, s, h) && LocksOk(s.jobs, s.locks) && pid in s.jobs
    requires if phase.Judging? then SameJudging(s.jobs[pid], s.jobs[pid].(phase := phase))
      else !s.jobs[pid].phase.Judging?
    ensures Agree(cfg, Move(s, pid, phase).(clock := at), h)
  {
    AgreeStays(cfg, s, h, Move(s, pid, phase).(clock := at), h);
  }

  lemma SteadyMove(cfg: Config, db: Db, jobs: map<Pid, Running>, verdicts: map<Pid, Verdict>, pid: Pid, r: Running)
    requires SteadyOk(cfg, db, jobs, verdicts)
    requires r.phase.Judging? ==> pid in verdicts && Steady(cfg, db, r.phase, verdicts[pid])
    ensures SteadyOk(cfg, db, jobs[pid := r], verdicts)
  {
  }
}
