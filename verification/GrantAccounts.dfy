/** Account deletion over whole runs: when a user may be wiped, and what follows. */
module GrantAccounts {
  import opened Prelude
  import opened GrantTables
  import opened GrantSteps
  import opened GrantMachine

  ghost predicate Is(w: World, u: UserId, user: User) {
    u in w.db.users && w.db.users[u] == user
  }

  /** The j-th operation moved `u` from active to pending deletion, and up to the n-th nothing took it out again. */
  ghost predicate PendingSince(cfg: Config, w: World, ops: seq<Op>, j: nat, n: nat, u: UserId) {
    && j < n <= |ops|
    && ops[j].AskDeletion? && ops[j].user == u
    && (exists s :: Is(After(cfg, w, ops[..j]), u, User(Active, s)))
    && forall i :: j < i <= n ==>
         Is(After(cfg, w, ops[..i]), u, User(PendingDeletion, Some(ops[j].sampledAt + 30 * DAY)))
  }

  lemma PendingStepHasCause(cfg: Config, w: World, op: Op, u: UserId, s: Option<Time>)
    requires Enabled(cfg, w, op) && Is(Next(cfg, w, op), u, User(PendingDeletion, s))
    ensures Is(w, u, User(PendingDeletion, s))
         || (op.AskDeletion? && op.user == u && s == Some(op.sampledAt + 30 * DAY)
             && exists s0 :: Is(w, u, User(Active, s0)))
  {
    if !Is(w, u, User(PendingDeletion, s)) {
      assert Is(w, u, User(Active, w.db.users[u].scheduledAt));
    }
  }

  lemma PendingSinceExtends(cfg: Config, w: World, ops: seq<Op>, op: Op, j: nat, u: UserId)
    requires PendingSince(cfg, w, ops, j, |ops|, u)
    requires Is(After(cfg, w, ops + [op]), u, User(PendingDeletion, Some(ops[j].sampledAt + 30 * DAY)))
    ensures PendingSince(cfg, w, ops + [op], j, |ops| + 1, u)
  {
    var longer := ops + [op];
    forall i | 0 <= i <= |ops| ensures longer[..i] == ops[..i] {}
    assert longer[..|ops| + 1] == longer;
  }

  lemma PendingSinceStarts(cfg: Config, w: World, ops: seq<Op>, op: Op, u: UserId)
    requires op.AskDeletion? && op.user == u && (exists s :: Is(After(cfg, w, ops), u, User(Active, s)))
    requires Is(After(cfg, w, ops + [op]), u, User(PendingDeletion, Some(op.sampledAt + 30 * DAY)))
    ensures PendingSince(cfg, w, ops + [op], |ops|, |ops| + 1, u)
  {
    var longer := ops + [op];
    assert longer[..|ops|] == ops && longer[..|ops| + 1] == longer;
  }

  lemma {:induction false} PendingHasARequest(cfg: Config, start: Time, ops: seq<Op>, u: UserId,
                                              s: Option<Time>) returns (j: nat)
    requires Runnable(cfg, Start(start), ops) && Is(After(cfg, Start(start), ops), u, User(PendingDeletion, s))
    ensures PendingSince(cfg, Start(start), ops, j, |ops|, u) && s == Some(ops[j].sampledAt + 30 * DAY)
    decreases |ops|
  {
    var n := |ops| - 1;
    var front, op := ops[..n], ops[n];
    assert ops == front + [op];
    AfterLast(cfg, Start(start), front, op);
    var w := After(cfg, Start(start), front);
    PendingStepHasCause(cfg, w, op, u, s);
    if Is(w, u, User(PendingDeletion, s)) {
      j := PendingHasARequest(cfg, start, front, u, s);
      PendingSinceExtends(cfg, Start(start), front, op, j, u);
    } else {
      j := n;
      PendingSinceStarts(cfg, Start(start), front, op, u);
    }
  }

  /** The request of the j-th operation is more than thirty days before the cleanup's clock, and still stands. */
  ghost predicate DueSince(cfg: Config, start: Time, ops: seq<Op>, j: nat, op: Op)
    requires op.WipeUser?
  {
    PendingSince(cfg, Start(start), ops, j, |ops|, op.user) && ops[j].sampledAt + 30 * DAY < op.sampledAt
  }

  /** Whatever ran between listing and wiping: a user is wiped exactly if the latest change from active to
      pending deletion was asked for more than 30 days before the cleanup's clock, and the account has
      been pending ever since. The wipe then leaves none of the user's identities, sessions or tokens
      and every row of everybody else. */
  lemma WipedExactlyAfterThirtyPendingDays(cfg: Config, start: Time, ops: seq<Op>, op: Op)
    requires Runnable(cfg, Start(start), ops) && op.WipeUser? && Enabled(cfg, After(cfg, Start(start), ops), op)
    ensures var db, db2 := After(cfg, Start(start), ops).db, Next(cfg, After(cfg, Start(start), ops), op).db;
      && (db2 != db <==> exists j: nat :: DueSince(cfg, start, ops, j, op))
      && (db2 != db ==>
            && (forall i :: i in db2.tokens <==> i in db.tokens && db.tokens[i].grant.user != op.user)
            && (forall i :: i in db2.sessions <==> i in db.sessions && db.sessions[i].user != op.user)
            && (forall i :: i in db2.identities <==> i in db.identities && db.identities[i] != op.user)
            && (forall i :: i in db2.tokens ==> db2.tokens[i] == db.tokens[i])
            && (forall i :: i in db2.sessions ==> db2.sessions[i] == db.sessions[i])
            && (forall i :: i in db2.identities ==> db2.identities[i] == db.identities[i])
            && db2.users == db.users[op.user := User(Deleted, None)] && db2.tombstones == db.tombstones)
  {
    var w := After(cfg, Start(start), ops);
    if Next(cfg, w, op).db != w.db {
      var j := PendingHasARequest(cfg, start, ops, op.user, w.db.users[op.user].scheduledAt);
      assert DueSince(cfg, start, ops, j, op);
    }
    if j: nat :| DueSince(cfg, start, ops, j, op) {
      assert ops[..|ops|] == ops;
      assert Is(w, op.user, User(PendingDeletion, Some(ops[j].sampledAt + 30 * DAY)));
    }
  }

  /** Everything that can happen to an account's row. */
  lemma AccountsChangeExactly(cfg: Config, w: World, op: Op, u: UserId)
    requires Enabled(cfg, w, op) && u in w.db.users
    ensures u in Next(cfg, w, op).db.users
    ensures var was, now := w.db.users[u], Next(cfg, w, op).db.users[u];
      now == if op.DisableUser? && op.user == u then User(Disabled, was.scheduledAt)
             else if was.status == Active && op.AskDeletion? && op.user == u
             then User(PendingDeletion, Some(op.sampledAt + 30 * DAY))
             else if was.status == PendingDeletion && op.RecoverUser? && op.user == u then User(Active, None)
             else if was.status == PendingDeletion && op.WipeUser? && op.user == u && was.scheduledAt.Some? &&
                was.scheduledAt.value < op.sampledAt
             then User(Deleted, None)
             else was
  {
  }

  // ---------- after the wipe ----------

  ghost predicate Gone(w: World, u: UserId) {
    Is(w, u, User(Deleted, None)) || Is(w, u, User(Disabled, None))
  }

  ghost predicate Disables(ops: seq<Op>, u: UserId) {
    ops != [] && ((ops[0].DisableUser? && ops[0].user == u) || Disables(ops[1..], u))
  }

  /** A wiped account stays `deleted` exactly as long as nobody disables it: DisableUser overwrites the
      status unconditionally. Either way it never becomes active or pending again. */
  lemma {:induction false} DeletedUnlessDisabled(cfg: Config, w: World, ops: seq<Op>, u: UserId)
    requires Runnable(cfg, w, ops) && Gone(w, u)
    ensures Gone(After(cfg, w, ops), u)
    ensures Is(After(cfg, w, ops), u, User(Deleted, None)) <==> Is(w, u, User(Deleted, None)) && !Disables(ops, u)
    decreases |ops|
  {
    if ops == [] {
    } else {
      DeletedUnlessDisabled(cfg, Next(cfg, w, ops[0]), ops[1..], u);
    }
  }

  lemma PendingRun(cfg: Config) returns (ops: seq<Op>)
    requires cfg.lag >= 0
    ensures Runnable(cfg, Start(0), ops) && After(cfg, Start(0), ops).clock == 0
    ensures Is(After(cfg, Start(0), ops), 0, User(PendingDeletion, Some(30 * DAY)))
  {
    var up, ask := SignUp(0, 0, 0), AskDeletion(0, 0, 0);
    assert Is(Next(cfg, Start(0), up), 0, User(Active, None));
    AfterLast(cfg, Start(0), [], up);
    assert [] + [up] == [up];
    AfterLast(cfg, Start(0), [up], ask);
    ops := [up] + [ask];
  }

  lemma WipedRun(cfg: Config) returns (ops: seq<Op>)
    requires cfg.lag >= 0
    ensures Runnable(cfg, Start(0), ops) && After(cfg, Start(0), ops).clock == 31 * DAY
    ensures Is(After(cfg, Start(0), ops), 0, User(Deleted, None))
  {
    var front := PendingRun(cfg);
    AfterLast(cfg, Start(0), front, WipeUser(31 * DAY, 31 * DAY, 0));
    ops := front + [WipeUser(31 * DAY, 31 * DAY, 0)];
  }

  /** An account is wiped a month after it asked for it, then disabled, and is `deleted` no longer. */
  lemma DisablingTakesOutOfDeleted(cfg: Config) returns (ops: seq<Op>, op: Op)
    requires cfg.lag >= 0
    ensures op.DisableUser? && Runnable(cfg, Start(0), ops + [op])
    ensures Is(After(cfg, Start(0), ops), 0, User(Deleted, None))
    ensures Is(After(cfg, Start(0), ops + [op]), 0, User(Disabled, None))
  {
    ops := WipedRun(cfg);
    op := DisableUser(31 * DAY, 0);
    AfterLast(cfg, Start(0), ops, op);
  }
}
