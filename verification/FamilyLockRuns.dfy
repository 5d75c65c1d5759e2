/** Every interleaving whose deletion requests commit calmly is a run of the atomic machine. */
module FamilyLockRuns {
  import opened Prelude
  import opened GrantSteps
  import opened GrantMachine
  import opened GrantInvariants
  import opened FamilyLock
  import opened FamilyShadow
  import opened FamilyBooks
  import opened FamilyTransactions
  import opened FamilySurroundings

  lemma CommitKeeps(cfg: Config, start: Time, s: Sys, h: Shadow, pid: Pid, at: Time)
    requires Sound(cfg) && Good(cfg, start, s, h) && Can(cfg, s, Commit(at, pid)) && CalmStep(cfg, s, Commit(at, pid))
    ensures Good(cfg, start, Do(cfg, s, Commit(at, pid)), Follow(cfg, s, h, Commit(at, pid)))
  {
    match s.jobs[pid].job
    case Rotate(_, _, _) => CommitRotationKeeps(cfg, start, s, h, pid, at);
    case Revoke(_, _, _) => CommitRevocationKeeps(cfg, start, s, h, pid, at);
    case Ask(_) => CommitRequestKeeps(cfg, start, s, h, pid, at);
  }

  predicate Reads(step: Step) {
    step.Lookup? || step.Reload? || step.Check? || step.SeeTombstone? || step.SeeOnPurpose? || step.SeeChildren?
  }

  lemma ReadKeeps(cfg: Config, start: Time, s: Sys, h: Shadow, step: Step)
    requires Sound(cfg) && Good(cfg, start, s, h) && Can(cfg, s, step) && Reads(step)
    ensures Good(cfg, start, Do(cfg, s, step), Follow(cfg, s, h, step))
  {
    if step.Lookup? {
      LookupKeeps(cfg, start, s, h, step.pid, step.at);
    } else if step.Reload? {
      ReloadKeeps(cfg, start, s, h, step.pid, step.at);
    } else if step.Check? {
      CheckKeeps(cfg, start, s, h, step.pid, step.at);
    } else {
      QueryKeeps(cfg, start, s, h, step);
    }
  }

  predicate Begins(step: Step) {
    step.Spawn? || step.Lock? || step.Snapshot?
  }

  lemma BeginningKeeps(cfg: Config, start: Time, s: Sys, h: Shadow, step: Step)
    requires Good(cfg, start, s, h) && Can(cfg, s, step) && Begins(step)
    ensures Good(cfg, start, Do(cfg, s, step), Follow(cfg, s, h, step))
  {
    if step.Spawn? {
      SpawnKeeps(cfg, start, s, h, step.pid, step.job, step.at);
    } else if step.Lock? {
      LockKeeps(cfg, start, s, h, step.pid, step.at);
    } else {
      SnapshotKeeps(cfg, start, s, h, step.pid, step.at);
    }
  }

  lemma StepKeeps(cfg: Config, start: Time, s: Sys, h: Shadow, step: Step)
    requires Prompt(cfg) && Good(cfg, start, s, h) && Can(cfg, s, step) && CalmStep(cfg, s, step)
    ensures Good(cfg, start, Do(cfg, s, step), Follow(cfg, s, h, step))
  {
    if Reads(step) {
      ReadKeeps(cfg, start, s, h, step);
    } else if Begins(step) {
      BeginningKeeps(cfg, start, s, h, step);
    } else if step.Commit? {
      CommitKeeps(cfg, start, s, h, step.pid, step.at);
    } else {
      SurroundingsKeep(cfg, start, s, h, step.op);
    }
  }

  ghost function FollowAll(cfg: Config, s: Sys, h: Shadow, steps: seq<Step>): Shadow
    requires Feasible(cfg, s, steps)
    decreases |steps|
  {
    if steps == [] then h else FollowAll(cfg, Do(cfg, s, steps[0]), Follow(cfg, s, h, steps[0]), steps[1..])
  }

  lemma {:induction false} RunKeeps(cfg: Config, start: Time, s: Sys, h: Shadow, steps: seq<Step>)
    requires Prompt(cfg) && Good(cfg, start, s, h) && Feasible(cfg, s, steps) && CalmRun(cfg, s, steps)
    ensures Good(cfg, start, Final(cfg, s, steps), FollowAll(cfg, s, h, steps))
    decreases |steps|
  {
    if steps == [] {
    } else {
      StepKeeps(cfg, start, s, h, steps[0]);
      RunKeeps(cfg, start, Do(cfg, s, steps[0]), Follow(cfg, s, h, steps[0]), steps[1..]);
    }
  }

  ghost function ShadowOf(start: Time): Shadow {
    Shadow(Start(start), [], map[], map[], [])
  }

  lemma StartIsGood(cfg: Config, start: Time)
    ensures Good(cfg, start, Begin(start), ShadowOf(start))
  {
  }

  /** Any number of rotations, revocations and calm deletion requests, interleaved in any way with each other and with
      logins, recoveries, wipes and cleanup: there is a run of the atomic machine, in the order of time, in which every
      finished transaction has its place and gives the answer it gave, transactions of one family in the order of the
      lock; and whenever nobody is between clock reading and commit, the database is the one this run leads to. */
  lemma InterleavingsAreRuns(cfg: Config, start: Time, steps: seq<Step>) returns (ops: seq<Op>, positions: seq<nat>)
    requires Prompt(cfg) && Feasible(cfg, Begin(start), steps) && CalmRun(cfg, Begin(start), steps)
    ensures var s := Final(cfg, Begin(start), steps);
      && Runnable(cfg, Start(start), ops)
      && InLockOrder(s.done, positions)
      && (forall k :: 0 <= k < |s.done| ==> Answered(cfg, start, ops, positions[k], s.done[k]))
      && ((forall q :: q in s.jobs ==> !s.jobs[q].phase.Judging?) ==> s.db == After(cfg, Start(start), ops).db)
  {
    StartIsGood(cfg, start);
    RunKeeps(cfg, start, Begin(start), ShadowOf(start), steps);
    var s, h := Final(cfg, Begin(start), steps), FollowAll(cfg, Begin(start), ShadowOf(start), steps);
    ops, positions := h.trace, h.positions;
    if forall q :: q in s.jobs ==> !s.jobs[q].phase.Judging? {
      NobodyJudgingMeansEqual(cfg, s, h);
    }
  }
}
