/** What every poll of a device code is answered, in terms of the operations on record alone: who handed the code
out, who was the first to approve or deny it, and which polls came before. */
module DeviceAnswers {
  import opened Prelude
  import opened DeviceCodes

  /** The s-th operation handed out this code. */
  predicate StoredAt(ops: seq<Op>, s: nat, c: Code) {
    s < |ops| && ops[s].Store? && ops[s].code == c
  }

  /** The k-th operation would approve the code stored by the s-th. */
  predicate Approves(ops: seq<Op>, s: nat, k: nat)
    requires s < |ops| && ops[s].Store?
  {
    s < k < |ops| && ops[k].ApproveOp? && ops[k].userCode == ops[s].userCode && ops[k].authTime < ops[s].expiresAt
  }

  predicate Denies(ops: seq<Op>, s: nat, k: nat)
    requires s < |ops| && ops[s].Store?
  {
    s < k < |ops| && ops[k].DenyOp? && ops[k].userCode == ops[s].userCode
  }

  /** The k-th operation is the first that approves or denies the code. */
  ghost predicate DecidedAt(ops: seq<Op>, s: nat, k: nat)
    requires s < |ops| && ops[s].Store?
  {
    && (Approves(ops, s, k) || Denies(ops, s, k))
    && forall j :: s < j < k ==> !Approves(ops, s, j) && !Denies(ops, s, j)
  }

  ghost predicate Undecided(ops: seq<Op>, s: nat)
    requires s < |ops| && ops[s].Store?
  {
    forall j :: s < j < |ops| ==> !Approves(ops, s, j) && !Denies(ops, s, j)
  }

  /** The k-th operation is a poll of this code by its client. */
  predicate Polls(ops: seq<Op>, s: nat, k: nat)
    requires s < |ops| && ops[s].Store?
  {
    s < k < |ops| && ops[k].PollOp? && ops[k].poll.code == ops[s].code && ops[k].poll.client == ops[s].client
  }

  /** No earlier poll of this code is less than an interval ago. */
  ghost predicate KeepsCadence(ops: seq<Op>, s: nat, interval: Time, now: Time)
    requires s < |ops| && ops[s].Store?
  {
    forall k: nat :: Polls(ops, s, k) ==> now - ops[k].at >= interval
  }

  /** A Done answer for this code is on record. */
  ghost predicate Finished(w: World, c: Code) {
    exists k :: 0 <= k < |w.done| && w.done[k].code == c
  }

  ghost predicate LastPoll(ops: seq<Op>, s: nat, at: Option<Time>)
    requires s < |ops| && ops[s].Store?
  {
    match at
    case None => forall k: nat :: s < k < |ops| ==> !Polls(ops, s, k)
    case Some(t) =>
      && (forall k: nat :: Polls(ops, s, k) ==> ops[k].at <= t)
      && (exists k: nat :: Polls(ops, s, k) && ops[k].at == t)
  }

  /** The row says what the operations have done to the code. */
  ghost predicate Records(ops: seq<Op>, s: nat, w: World, d: Device)
    requires s < |ops| && ops[s].Store?
  {
    && d.userCode == ops[s].userCode && d.client == ops[s].client && d.expiresAt == ops[s].expiresAt
    && (d.phase == Pending <==> Undecided(ops, s))
    && (d.phase == Denied <==> exists k: nat :: DecidedAt(ops, s, k) && Denies(ops, s, k))
    && (Decided(d) <==> exists k: nat :: DecidedAt(ops, s, k) && Approves(ops, s, k))
    && (forall k: nat :: Decided(d) && DecidedAt(ops, s, k) ==>
          d.subject == Some(ops[k].subject) && d.authTime == Some(ops[k].authTime))
    && (d.phase == Consumed <==> Finished(w, ops[s].code))
    && (d.phase == Pending ==> LastPoll(ops, s, d.lastPolledAt))
  }

  lemma SameBefore(ops: seq<Op>, op: Op, s: nat, k: nat)
    requires s < |ops| && ops[s].Store? && k < |ops|
    ensures Approves(ops + [op], s, k) == Approves(ops, s, k) && Denies(ops + [op], s, k) == Denies(ops, s, k)
    ensures Polls(ops + [op], s, k) == Polls(ops, s, k)
  {
  }

  lemma DecisionsGrow(ops: seq<Op>, op: Op, s: nat)
    requires s < |ops| && ops[s].Store?
    ensures var ops2, n := ops + [op], |ops|;
      var decides := Approves(ops2, s, n) || Denies(ops2, s, n);
      && (Undecided(ops2, s) <==> Undecided(ops, s) && !decides)
      && (forall k :: 0 <= k < n ==> (DecidedAt(ops2, s, k) <==> DecidedAt(ops, s, k)))
      && (DecidedAt(ops2, s, n) <==> Undecided(ops, s) && decides)
  {
    forall k: nat | k < |ops|
      ensures Approves(ops + [op], s, k) == Approves(ops, s, k) && Denies(ops + [op], s, k) == Denies(ops, s, k)
    {
      SameBefore(ops, op, s, k);
    }
  }

  lemma LastPollGrows(ops: seq<Op>, op: Op, s: nat, at: Option<Time>)
    requires s < |ops| && ops[s].Store? && LastPoll(ops, s, at) && (at.Some? ==> at.value <= op.at)
    ensures LastPoll(ops + [op], s, if Polls(ops + [op], s, |ops|) then Some(op.at) else at)
  {
    var ops2, n := ops + [op], |ops|;
    forall k: nat | k < n ensures Polls(ops2, s, k) == Polls(ops, s, k) && ops2[k] == ops[k] {
      SameBefore(ops, op, s, k);
    }
    if Polls(ops2, s, n) {
      assert ops2[n].at == op.at;
    } else if at.Some? {
      var k: nat :| Polls(ops, s, k) && ops[k].at == at.value;
      assert Polls(ops2, s, k);
    }
  }

  // ---------- one more operation ----------

  predicate IsPollOf(op: Op, c: Code, d: Device) {
    op.PollOp? && op.poll.code == c && op.poll.client == d.client
  }

  predicate IsApprovalOf(op: Op, d: Device) {
    op.ApproveOp? && op.userCode == d.userCode && op.authTime < d.expiresAt
  }

  predicate IsDenialOf(op: Op, d: Device) {
    op.DenyOp? && op.userCode == d.userCode
  }

  ghost predicate AnswersDone(interval: Time, w: World, op: Op, c: Code) {
    op.PollOp? && op.poll.code == c && Answered(interval, w.devices, op.poll).Done?
  }

  /** What an operation does to a code handed out before. */
  lemma RowAfter(interval: Time, w: World, op: Op, c: Code)
    requires Enabled(w, op) && c in w.devices && c in w.codes && c in Next(interval, w, op).devices
    ensures var d, d2 := w.devices[c], Next(interval, w, op).devices[c];
      && d2.userCode == d.userCode && d2.client == d.client && d2.expiresAt == d.expiresAt
      && d2.phase == (if d.phase == Pending && IsApprovalOf(op, d) then Approved
                      else if d.phase == Pending && IsDenialOf(op, d) then Denied
                      else if AnswersDone(interval, w, op, c) then Consumed else d.phase)
      && (if d.phase == Pending && IsApprovalOf(op, d)
          then d2.subject == Some(op.subject) && d2.authTime == Some(op.authTime)
          else d2.subject == d.subject && d2.authTime == d.authTime)
      && (d.phase == Pending ==> d2.lastPolledAt == if IsPollOf(op, c, d) then Some(op.at) else d.lastPolledAt)
      && (AnswersDone(interval, w, op, c) ==> d.phase == Approved)
  {
  }

  lemma FinishedAfter(interval: Time, w: World, op: Op, c: Code)
    ensures Finished(Next(interval, w, op), c) <==> Finished(w, c) || AnswersDone(interval, w, op, c)
  {
    var done2 := Next(interval, w, op).done;
    assert forall k :: 0 <= k < |w.done| ==> done2[k] == w.done[k];
    if AnswersDone(interval, w, op, c) {
      assert done2[|w.done|].code == c;
    }
  }

  lemma PhaseIsRecorded(interval: Time, ops: seq<Op>, op: Op, s: nat, w: World, c: Code)
    requires Enabled(w, op) && StoredAt(ops, s, c) && c in w.codes && c in w.devices &&
      c in Next(interval, w, op).devices
    requires Records(ops, s, w, w.devices[c])
    ensures var ops2, d2 := ops + [op], Next(interval, w, op).devices[c];
      && (d2.phase == Pending <==> Undecided(ops2, s))
      && (d2.phase == Denied <==> exists k: nat :: DecidedAt(ops2, s, k) && Denies(ops2, s, k))
      && (Decided(d2) <==> exists k: nat :: DecidedAt(ops2, s, k) && Approves(ops2, s, k))
      && (forall k: nat :: Decided(d2) && DecidedAt(ops2, s, k) ==>
            d2.subject == Some(ops2[k].subject) && d2.authTime == Some(ops2[k].authTime))
  {
    var ops2, n, d, d2 := ops + [op], |ops|, w.devices[c], Next(interval, w, op).devices[c];
    RowAfter(interval, w, op, c);
    DecisionsGrow(ops, op, s);
    assert Approves(ops2, s, n) <==> IsApprovalOf(op, d);
    assert Denies(ops2, s, n) <==> IsDenialOf(op, d);
    forall k: nat | k < n
      ensures Approves(ops2, s, k) == Approves(ops, s, k) && Denies(ops2, s, k) == Denies(ops, s, k) &&
        ops2[k] == ops[k]
    {
      SameBefore(ops, op, s, k);
    }
    if d.phase == Pending {
      if IsApprovalOf(op, d) || IsDenialOf(op, d) {
        assert DecidedAt(ops2, s, n);
      }
    } else {
      assert forall k: nat :: DecidedAt(ops2, s, k) ==> k < n && DecidedAt(ops, s, k);
      if d.phase == Denied {
        var k: nat :| DecidedAt(ops, s, k) && Denies(ops, s, k);
        assert DecidedAt(ops2, s, k) && Denies(ops2, s, k);
      } else {
        var k: nat :| DecidedAt(ops, s, k) && Approves(ops, s, k);
        assert DecidedAt(ops2, s, k) && Approves(ops2, s, k);
      }
    }
  }

  lemma OneMoreRecord(interval: Time, ops: seq<Op>, op: Op, s: nat, w: World, c: Code)
    requires Enabled(w, op) && StoredAt(ops, s, c) && c in w.codes && c in w.devices &&
      c in Next(interval, w, op).devices
    requires Records(ops, s, w, w.devices[c]) && (w.devices[c].phase == Pending ==> DatedBefore(w.devices[c], w.clock))
    ensures Records(ops + [op], s, Next(interval, w, op), Next(interval, w, op).devices[c])
  {
    var d, d2 := w.devices[c], Next(interval, w, op).devices[c];
    PhaseIsRecorded(interval, ops, op, s, w, c);
    RowAfter(interval, w, op, c);
    FinishedAfter(interval, w, op, c);
    if d.phase == Pending {
      LastPollGrows(ops, op, s, d.lastPolledAt);
      assert Polls(ops + [op], s, |ops|) <==> IsPollOf(op, c, d);
    }
  }

  predicate DatedBefore(d: Device, clock: Time) {
    d.lastPolledAt.Some? ==> d.lastPolledAt.value <= clock
  }

  lemma FirstRecord(interval: Time, ops: seq<Op>, op: Op, w: World)
    requires Enabled(w, op) && op.Store? && DoneOk(w)
    ensures Records(ops + [op], |ops|, Next(interval, w, op), Next(interval, w, op).devices[op.code])
  {
    assert !Finished(w, op.code);
    FinishedAfter(interval, w, op, op.code);
  }

  lemma {:induction false} StoredIsKnown(interval: Time, w: World, ops: seq<Op>, s: nat, c: Code)
    requires StoredAt(ops, s, c) || c in w.codes
    ensures c in After(interval, w, ops).codes
    decreases |ops|
  {
    if ops == [] {
    } else {
      var w2 := Next(interval, w, ops[0]);
      assert c !in w2.codes ==> s > 0 && ops[1..][s - 1] == ops[s];
      StoredIsKnown(interval, w2, ops[1..], if s > 0 then s - 1 else 0, c);
    }
  }

  /** In every run, while a code is kept its row says what the operations have done to it. */
  lemma {:induction false} RowsAreRecords(interval: Time, t: Time, ops: seq<Op>, s: nat, c: Code)
    requires Runnable(interval, Start(t), ops) && StoredAt(ops, s, c) && c in After(interval, Start(t), ops).devices
    ensures Records(ops, s, After(interval, Start(t), ops), After(interval, Start(t), ops).devices[c])
    decreases |ops|
  {
    var n := |ops| - 1;
    var front, op := ops[..n], ops[n];
    var w := After(interval, Start(t), front);
    assert ops == front + [op];
    AfterLast(interval, Start(t), front, op);
    RunKeeps(interval, Start(t), front);
    if s == n {
      FirstRecord(interval, front, op, w);
    } else {
      assert StoredAt(front, s, c);
      StoredIsKnown(interval, Start(t), front, s, c);
      StepMovesForward(interval, w, op);
      RowsAreRecords(interval, t, front, s, c);
      OneMoreRecord(interval, front, op, s, w, c);
    }
  }

  // ---------- the answers ----------

  /** The code was approved for this subject and login, and no Done is on record. */
  ghost predicate AwaitsPickup(ops: seq<Op>, s: nat, w: World, subject: UserId, authTime: Time)
    requires s < |ops| && ops[s].Store?
  {
    && !Finished(w, ops[s].code)
    && exists k: nat :: && DecidedAt(ops, s, k) && Approves(ops, s, k)
                        && ops[k].subject == subject && ops[k].authTime == authTime
  }

  ghost predicate DeniedFirst(ops: seq<Op>, s: nat)
    requires s < |ops| && ops[s].Store?
  {
    exists k: nat :: DecidedAt(ops, s, k) && Denies(ops, s, k)
  }

  lemma CadenceIsTheLastPoll(ops: seq<Op>, s: nat, interval: Time, d: Device, now: Time)
    requires s < |ops| && ops[s].Store? && LastPoll(ops, s, d.lastPolledAt)
    ensures TooSoon(interval, d, now) <==> !KeepsCadence(ops, s, interval, now)
  {
    if d.lastPolledAt.Some? {
      var k: nat :| Polls(ops, s, k) && ops[k].at == d.lastPolledAt.value;
    }
  }

  lemma PhasesTell(interval: Time, ops: seq<Op>, s: nat, w: World, poll: Poll)
    requires StoredAt(ops, s, poll.code) && poll.code in w.devices && Records(ops, s, w, w.devices[poll.code])
    ensures var d := w.devices[poll.code];
      && (d.phase == Pending ==> (TooSoon(interval, d, poll.now) <==> !KeepsCadence(ops, s, interval, poll.now)))
      && (d.phase == Denied <==> DeniedFirst(ops, s))
      && (forall u: UserId, auth :: AwaitsPickup(ops, s, w, u, auth) <==>
            d.phase == Approved && d.subject == Some(u) && d.authTime == Some(auth))
      && (d.phase == Approved ==> d.subject.Some? && d.authTime.Some?)
  {
    var d := w.devices[poll.code];
    if d.phase == Pending {
      CadenceIsTheLastPoll(ops, s, interval, d, poll.now);
    }
    if Decided(d) {
      var k: nat :| DecidedAt(ops, s, k) && Approves(ops, s, k);
      assert d.subject == Some(ops[k].subject);
      forall u: UserId, auth
        ensures AwaitsPickup(ops, s, w, u, auth) <==>
          d.phase == Approved && d.subject == Some(u) && d.authTime == Some(auth)
      {
        if d.phase == Approved && d.subject == Some(u) && d.authTime == Some(auth) {
          assert ops[k].subject == u && ops[k].authTime == auth;
        }
      }
    }
  }

  /** In every run, what the client that was given a code is answered while the code is kept: denied if the first
      decision denied it; done, for the subject and login of the approval, if the first decision approved it, nobody
      was told so before and the subject is active with access; consumed if somebody was; and before any decision
      pending, or slow down if it polled less than an interval ago. */
  lemma AnswersExactly(interval: Time, t: Time, ops: seq<Op>, s: nat, poll: Poll)
    requires Runnable(interval, Start(t), ops) && StoredAt(ops, s, poll.code) && ops[s].client == poll.client
    requires poll.code in After(interval, Start(t), ops).devices && poll.now <= ops[s].expiresAt
    ensures var w := After(interval, Start(t), ops);
      var a := Answered(interval, w.devices, poll);
      && (a == WasDenied <==> DeniedFirst(ops, s))
      && (a == AlreadyConsumed <==> Finished(w, poll.code))
      && (forall u: UserId, auth :: a == Done(u, auth) <==>
            AwaitsPickup(ops, s, w, u, auth) && u in poll.active && poll.accessOk)
      && (a == AccountRefused <==>
            exists u: UserId, auth :: AwaitsPickup(ops, s, w, u, auth) && !(u in poll.active && poll.accessOk))
      && (a == StillPending <==> Undecided(ops, s) && KeepsCadence(ops, s, interval, poll.now))
      && (a == SlowDown <==> Undecided(ops, s) && !KeepsCadence(ops, s, interval, poll.now))
  {
    var w := After(interval, Start(t), ops);
    RowsAreRecords(interval, t, ops, s, poll.code);
    PhasesTell(interval, ops, s, w, poll);
  }

  /** After its expiry a code that is still kept is answered expired, unless it is undecided and polled too soon, or
      waits to be picked up by a subject that is not active with access. */
  lemma ExpiredAnswersExactly(interval: Time, t: Time, ops: seq<Op>, s: nat, poll: Poll)
    requires Runnable(interval, Start(t), ops) && StoredAt(ops, s, poll.code) && ops[s].client == poll.client
    requires poll.code in After(interval, Start(t), ops).devices && poll.now > ops[s].expiresAt
    ensures var w := After(interval, Start(t), ops);
      var a := Answered(interval, w.devices, poll);
      && (a == SlowDown <==> Undecided(ops, s) && !KeepsCadence(ops, s, interval, poll.now))
      && (a == AccountRefused <==>
            exists u: UserId, auth :: AwaitsPickup(ops, s, w, u, auth) && !(u in poll.active && poll.accessOk))
      && (a == SlowDown || a == AccountRefused || a == HasExpired)
  {
    RowsAreRecords(interval, t, ops, s, poll.code);
    PhasesTell(interval, ops, s, After(interval, Start(t), ops), poll);
  }

  /** Nobody but the client a code was given to learns anything, and nobody after the code was deleted. */
  lemma StrangersLearnNothing(interval: Time, t: Time, ops: seq<Op>, s: nat, poll: Poll)
    requires Runnable(interval, Start(t), ops) && StoredAt(ops, s, poll.code)
    ensures var w := After(interval, Start(t), ops);
      Answered(interval, w.devices, poll) == NotFound <==> poll.code !in w.devices || poll.client != ops[s].client
  {
    if poll.code in After(interval, Start(t), ops).devices {
      RowsAreRecords(interval, t, ops, s, poll.code);
    }
  }
}
