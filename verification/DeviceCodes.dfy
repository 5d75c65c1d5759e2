/** Device authorization: pending, approved or denied, and consumed once; with enforced polling cadence.

Device and user codes are stored hashed; the hashes are injective, so the codes stand for them. The verdict of
the client's access policy is part of the poll.
*/
module DeviceCodes {
  import opened Prelude

  type Code = nat
  type UserCode = nat
  type ClientId = nat
  type UserId = nat

  const EXPIRED_CODE_RETENTION: Time := HOUR

  datatype Phase = Pending | Approved | Denied | Consumed

  /** A row of device_codes, keyed by its device code. */
  datatype Device = Device(userCode: UserCode, client: ClientId, phase: Phase, subject: Option<UserId>,
                           authTime: Option<Time>, expiresAt: Time, lastPolledAt: Option<Time>)

  type Devices = map<Code, Device>

  datatype Answer =
    | NotFound
    | SlowDown
    | AccountRefused
    | HasExpired
    | WasDenied
    | Done(subject: UserId, authTime: Time)
    | AlreadyConsumed
    | StillPending

  /** `active` are the users whose status is active as the transaction reads it. */
  datatype Poll = Poll(code: Code, client: ClientId, now: Time, active: set<UserId>, accessOk: bool)

  predicate TooSoon(interval: Time, d: Device, now: Time) {
    d.lastPolledAt.Some? && now - d.lastPolledAt.value < interval
  }

  function AnswerTo(interval: Time, d: Device, poll: Poll): (a: Answer) {
    if d.phase == Pending && TooSoon(interval, d, poll.now) then SlowDown
    else if d.phase == Approved && d.subject.Some? && (d.subject.value !in poll.active || !poll.accessOk)
        then AccountRefused
    else if poll.now > d.expiresAt then HasExpired
    else match d.phase
      case Denied => WasDenied
      case Approved => Done(if d.subject.Some? then d.subject.value else 0, if d.authTime.Some? then d.authTime.value
          else 0)
      case Consumed => AlreadyConsumed
      case Pending => StillPending
  }

  /** The row after a poll: a refused account rolls everything back. */
  function Polled(interval: Time, d: Device, poll: Poll): Device {
    var a := AnswerTo(interval, d, poll);
    if a == AccountRefused || d.phase == Denied || d.phase == Consumed then d
    else d.(lastPolledAt := Some(poll.now), phase := if a.Done? then Consumed else d.phase)
  }

  function Answered(interval: Time, ds: Devices, poll: Poll): Answer {
    if poll.code in ds && ds[poll.code].client == poll.client then AnswerTo(interval, ds[poll.code], poll) else NotFound
  }

  function AfterPoll(interval: Time, ds: Devices, poll: Poll): Devices {
    if poll.code in ds && ds[poll.code].client == poll.client
    then ds[poll.code := Polled(interval, ds[poll.code], poll)]
    else ds
  }

  /** Approving compares the expiry with the login time, not with the present. */
  function Approve(ds: Devices, userCode: UserCode, subject: UserId, authTime: Time): Devices {
    map c | c in ds :: if Approvable(ds[c], userCode, authTime)
                       then ds[c].(phase := Approved, subject := Some(subject), authTime := Some(authTime))
                       else ds[c]
  }

  predicate Approvable(d: Device, userCode: UserCode, authTime: Time) {
    d.userCode == userCode && d.phase == Pending && d.expiresAt > authTime
  }

  function Deny(ds: Devices, userCode: UserCode): Devices {
    map c | c in ds :: if ds[c].userCode == userCode && ds[c].phase == Pending then ds[c].(phase := Denied) else ds[c]
  }

  // ---------- the storage methods ----------

  class DeviceStorage {
    const interval: Time
    var devices: Devices

    constructor (interval: Time)
      ensures devices == map[] && this.interval == interval
    {
      this.interval := interval;
      devices := map[];
    }

    /** One transaction: read the row, enforce the cadence, check the account, resolve. */
    method GetDeviceAuthorizationState(poll: Poll) returns (a: Answer)
      modifies this`devices
      ensures a == Answered(interval, old(devices), poll)
      ensures devices == AfterPoll(interval, old(devices), poll)
    {
      if poll.code !in devices || devices[poll.code].client != poll.client {
        return NotFound;
      }
      var d, saved := devices[poll.code], devices;
      if d.phase != Denied && d.phase != Consumed {
        devices := devices[poll.code := d.(lastPolledAt := Some(poll.now))];
        if TooSoon(interval, d, poll.now) && d.phase == Pending {
          return SlowDown;
        }
      }
      if d.phase == Approved && d.subject.Some? {
        if d.subject.value !in poll.active || !poll.accessOk {
          devices := saved;
          return AccountRefused;
        }
      }
      if poll.now > d.expiresAt {
        return HasExpired;
      }
      match d.phase
      case Denied => return WasDenied;
      case Approved =>
        devices := devices[poll.code := devices[poll.code].(phase := Consumed)];
        return Done(if d.subject.Some? then d.subject.value else 0, if d.authTime.Some? then d.authTime.value else 0);
      case Consumed => return AlreadyConsumed;
      case Pending => return StillPending;
    }

    method ApproveDeviceCode(userCode: UserCode, subject: UserId, authTime: Option<Time>, now: Time) returns (ok: bool)
      modifies this`devices
      ensures devices == Approve(old(devices), userCode, subject, LoginTime(authTime, now))
      ensures ok <==> exists c :: c in old(devices) && Approvable(old(devices)[c], userCode, LoginTime(authTime, now))
    {
      var login := if authTime.Some? then authTime.value else now;
      var rows := set c | c in devices && Approvable(devices[c], userCode, login);
      devices := Approve(devices, userCode, subject, login);
      ok := rows != {};
      if ok {
        var c :| c in rows;
        assert Approvable(old(devices)[c], userCode, login);
      } else {
        forall c | c in old(devices) ensures !Approvable(old(devices)[c], userCode, login) {
          assert c !in rows;
        }
      }
    }
  }

  // ---------- runs ----------

  datatype Op =
    | Store(at: Time, code: Code, userCode: UserCode, client: ClientId, expiresAt: Time)
    | PollOp(at: Time, poll: Poll)
    | ApproveOp(at: Time, userCode: UserCode, subject: UserId, authTime: Time)
    | DenyOp(at: Time, userCode: UserCode)
    | Clean(at: Time, now: Time, victims: set<Code>)

  /** A poll answered while the code was pending. */
  datatype PendingPoll = PendingPoll(at: Time, slow: bool)

  /** A Done answer. */
  datatype Success = Success(code: Code, at: Time, subject: UserId, authTime: Time)

  /** `waits` lists for every code the polls made while it was pending, `done` every Done answer. */
  datatype World = World(devices: Devices, clock: Time, codes: set<Code>, waits: map<Code, seq<PendingPoll>>,
      done: seq<Success>)

  ghost predicate Enabled(w: World, op: Op) {
    && w.clock <= op.at
    && (op.Store? ==> op.code !in w.codes && forall c :: c in w.devices ==> w.devices[c].userCode != op.userCode)
    && (op.PollOp? ==> op.poll.now == op.at)
    && (op.Clean? ==> op.now <= op.at && forall c :: c in op.victims ==>
          c in w.devices && w.devices[c].expiresAt < op.now - EXPIRED_CODE_RETENTION)
  }

  function WaitsAfter(interval: Time, w: World, poll: Poll): map<Code, seq<PendingPoll>> {
    if poll.code in w.devices && w.devices[poll.code].client == poll.client && w.devices[poll.code].phase == Pending &&
        poll.code in w.waits
    then w.waits[poll.code := w.waits[poll.code] + [PendingPoll(poll.now,
        Answered(interval, w.devices, poll) == SlowDown)]]
    else w.waits
  }

  function Next(interval: Time, w: World, op: Op): World {
    match op
    case Store(at, code, userCode, client, expiresAt) =>
      World(w.devices[code := Device(userCode, client, Pending, None, None, expiresAt, None)], at,
            w.codes + {code}, w.waits[code := []], w.done)
    case PollOp(at, poll) =>
      var a := Answered(interval, w.devices, poll);
      World(AfterPoll(interval, w.devices, poll), at, w.codes, WaitsAfter(interval, w, poll),
            if a.Done? then w.done + [Success(poll.code, at, a.subject, a.authTime)] else w.done)
    case ApproveOp(at, userCode, subject, authTime) => w.(devices := Approve(w.devices, userCode, subject, authTime),
        clock := at)
    case DenyOp(at, userCode) => w.(devices := Deny(w.devices, userCode), clock := at)
    case Clean(at, _, victims) => w.(devices := w.devices - victims, clock := at)
  }

  ghost predicate Runnable(interval: Time, w: World, ops: seq<Op>)
    decreases |ops|
  {
    ops == [] || (Enabled(w, ops[0]) && Runnable(interval, Next(interval, w, ops[0]), ops[1..]))
  }

  function After(interval: Time, w: World, ops: seq<Op>): World
    decreases |ops|
  {
    if ops == [] then w else After(interval, Next(interval, w, ops[0]), ops[1..])
  }

  function Start(t: Time): World {
    World(map[], t, {}, map[], [])
  }

  // ---------- phases only move forward, and Done is answered once ----------

  /** What one operation may do to the phase. */
  predicate Moves(p: Phase, q: Phase) {
    p == q || (p == Pending && (q == Approved || q == Denied)) || (p == Approved && q == Consumed)
  }

  /** What several operations may do. */
  predicate Forward(p: Phase, q: Phase) {
    Moves(p, q) || (p == Pending && q == Consumed)
  }

  /** A later version of the row: identity fixed, phase moved forward, and once approved the bound subject
      and login time never change. */
  ghost predicate LaterVersion(d: Device, e: Device) {
    && e.userCode == d.userCode && e.client == d.client && e.expiresAt == d.expiresAt
    && Forward(d.phase, e.phase)
    && (d.phase != Pending ==> e.subject == d.subject && e.authTime == d.authTime)
  }

  predicate Decided(d: Device) {
    d.phase == Approved || d.phase == Consumed
  }

  ghost predicate RowsOk(w: World) {
    && w.devices.Keys <= w.codes && w.waits.Keys == w.codes
    && forall c :: c in w.devices && Decided(w.devices[c]) ==> w.devices[c].subject.Some? && w.devices[c].authTime.Some?
  }

  function LastOf(waits: seq<PendingPoll>): Option<Time> {
    if waits == [] then None else Some(waits[|waits| - 1].at)
  }

  /** Slow down is answered exactly when the previous poll was less than the interval ago. */
  ghost predicate Cadence(interval: Time, waits: seq<PendingPoll>) {
    forall k :: 0 <= k < |waits| ==>
      && (k == 0 ==> !waits[k].slow)
      && (k > 0 ==> waits[k - 1].at <= waits[k].at && (waits[k].slow <==> waits[k].at - waits[k - 1].at < interval))
  }

  ghost predicate WaitsOk(interval: Time, w: World) {
    forall c :: c in w.waits ==>
      && Cadence(interval, w.waits[c])
      && (LastOf(w.waits[c]).Some? ==> LastOf(w.waits[c]).value <= w.clock)
      && (c in w.devices && w.devices[c].phase == Pending ==> w.devices[c].lastPolledAt == LastOf(w.waits[c]))
  }

  ghost predicate DoneOk(w: World) {
    && (forall k :: 0 <= k < |w.done| ==>
          w.done[k].code in w.codes && (w.done[k].code in w.devices ==> w.devices[w.done[k].code].phase == Consumed))
    && (forall j, k :: 0 <= j < k < |w.done| ==> w.done[j].code != w.done[k].code)
  }

  ghost predicate Inv(interval: Time, w: World) {
    RowsOk(w) && WaitsOk(interval, w) && DoneOk(w)
  }

  /** Once approved, the subject and the login time are there. */
  predicate Bound(d: Device) {
    Decided(d) ==> d.subject.Some? && d.authTime.Some?
  }

  lemma RowMovesForward(interval: Time, w: World, op: Op, c: Code)
    requires c in w.devices && Bound(w.devices[c]) && c in Next(interval, w, op).devices && !(op.Store? && op.code == c)
    ensures var d, d2 := w.devices[c], Next(interval, w, op).devices[c];
      Moves(d.phase, d2.phase) && LaterVersion(d, d2) && Bound(d2)
  {
  }

  lemma StepMovesForward(interval: Time, w: World, op: Op)
    requires RowsOk(w) && Enabled(w, op)
    ensures RowsOk(Next(interval, w, op))
    ensures forall c :: c in w.codes && c in Next(interval, w, op).devices ==>
      && c in w.devices && Moves(w.devices[c].phase, Next(interval, w, op).devices[c].phase)
      && LaterVersion(w.devices[c], Next(interval, w, op).devices[c])
  {
    var w2 := Next(interval, w, op);
    forall c | c in w.devices && c in w2.devices
      ensures Moves(w.devices[c].phase, w2.devices[c].phase) && LaterVersion(w.devices[c], w2.devices[c]) &&
        Bound(w2.devices[c])
    {
      assert Bound(w.devices[c]);
      RowMovesForward(interval, w, op, c);
    }
  }

  lemma CadenceGrows(interval: Time, waits: seq<PendingPoll>, p: PendingPoll)
    requires Cadence(interval, waits)
    requires LastOf(waits).None? ==> !p.slow
    requires LastOf(waits).Some? ==> LastOf(waits).value <= p.at && (p.slow <==> p.at - LastOf(waits).value < interval)
    ensures Cadence(interval, waits + [p])
  {
  }

  lemma PollsWhilePending(interval: Time, w: World, poll: Poll)
    requires RowsOk(w) && WaitsOk(interval, w) && w.clock <= poll.now
    requires poll.code in w.devices && w.devices[poll.code].client == poll.client &&
      w.devices[poll.code].phase == Pending
    ensures Cadence(interval, WaitsAfter(interval, w, poll)[poll.code])
    ensures LastOf(WaitsAfter(interval, w, poll)[poll.code]) == Some(poll.now)
  {
    CadenceGrows(interval, w.waits[poll.code], PendingPoll(poll.now, Answered(interval, w.devices, poll) == SlowDown));
  }

  lemma PollKeepsWaits(interval: Time, w: World, op: Op)
    requires RowsOk(w) && WaitsOk(interval, w) && Enabled(w, op) && op.PollOp?
    ensures WaitsOk(interval, Next(interval, w, op))
  {
    var poll := op.poll;
    if poll.code in w.devices && w.devices[poll.code].client == poll.client && w.devices[poll.code].phase == Pending {
      PollsWhilePending(interval, w, poll);
    }
  }

  lemma StepKeepsWaits(interval: Time, w: World, op: Op)
    requires RowsOk(w) && WaitsOk(interval, w) && Enabled(w, op)
    ensures WaitsOk(interval, Next(interval, w, op))
  {
    if op.PollOp? {
      PollKeepsWaits(interval, w, op);
    }
  }

  lemma StepKeepsDone(interval: Time, w: World, op: Op)
    requires RowsOk(w) && DoneOk(w) && Enabled(w, op)
    ensures DoneOk(Next(interval, w, op))
  {
    StepMovesForward(interval, w, op);
  }

  lemma {:induction false} RunKeeps(interval: Time, w: World, ops: seq<Op>)
    requires Inv(interval, w) && Runnable(interval, w, ops)
    ensures Inv(interval, After(interval, w, ops))
    decreases |ops|
  {
    if ops == [] {
    } else {
      StepMovesForward(interval, w, ops[0]);
      StepKeepsWaits(interval, w, ops[0]);
      StepKeepsDone(interval, w, ops[0]);
      RunKeeps(interval, Next(interval, w, ops[0]), ops[1..]);
    }
  }

  /** Over any run a code only moves from pending to approved to consumed, or from pending to denied; what was
      bound at approval stays; a deleted code never comes back. */
  lemma {:induction false} CodesMoveForward(interval: Time, w: World, ops: seq<Op>, c: Code)
    requires RowsOk(w) && Runnable(interval, w, ops) && c in w.codes && c in After(interval, w, ops).devices
    ensures c in w.devices && LaterVersion(w.devices[c], After(interval, w, ops).devices[c])
    decreases |ops|
  {
    if ops == [] {
    } else {
      StepMovesForward(interval, w, ops[0]);
      CodesMoveForward(interval, Next(interval, w, ops[0]), ops[1..], c);
    }
  }

  /** No code is answered Done twice. */
  lemma DoneAtMostOnce(interval: Time, t: Time, ops: seq<Op>, j: nat, k: nat)
    requires Runnable(interval, Start(t), ops) && j < k < |After(interval, Start(t), ops).done|
    ensures After(interval, Start(t), ops).done[j].code != After(interval, Start(t), ops).done[k].code
  {
    RunKeeps(interval, Start(t), ops);
  }

  // ---------- where a Done answer comes from ----------

  lemma {:induction false} AfterLast(interval: Time, w: World, ops: seq<Op>, op: Op)
    ensures After(interval, w, ops + [op]) == Next(interval, After(interval, w, ops), op)
    ensures Runnable(interval, w, ops + [op]) <==> Runnable(interval, w, ops) && Enabled(After(interval, w, ops), op)
    decreases |ops|
  {
    if ops == [] {
      assert ([] + [op])[1..] == [];
    } else {
      assert (ops + [op])[1..] == ops[1..] + [op];
      AfterLast(interval, Next(interval, w, ops[0]), ops[1..], op);
    }
  }

  /** The k-th operation approved this row, which was pending, for the subject and login time it now carries. */
  ghost predicate ApprovedBy(interval: Time, t: Time, ops: seq<Op>, k: nat, c: Code, d: Device) {
    && k < |ops| && ops[k].ApproveOp?
    && ops[k].userCode == d.userCode && d.subject == Some(ops[k].subject) && d.authTime == Some(ops[k].authTime)
    && var before := After(interval, Start(t), ops[..k]).devices;
       c in before && Approvable(before[c], d.userCode, ops[k].authTime)
  }

  lemma {:induction false} ApprovalIsOnRecord(interval: Time, t: Time, ops: seq<Op>, c: Code) returns (k: nat)
    requires Runnable(interval, Start(t), ops) && c in After(interval, Start(t), ops).devices
    requires Decided(After(interval, Start(t), ops).devices[c])
    ensures ApprovedBy(interval, t, ops, k, c, After(interval, Start(t), ops).devices[c])
    decreases |ops|
  {
    var n := |ops| - 1;
    var front, op := ops[..n], ops[n];
    assert ops == front + [op];
    AfterLast(interval, Start(t), front, op);
    var w := After(interval, Start(t), front);
    if c in w.devices && Decided(w.devices[c]) && !(op.Store? && op.code == c) {
      k := ApprovalIsOnRecord(interval, t, front, c);
      assert front[..k] == ops[..k];
    } else {
      k := n;
    }
  }

  /** Done is answered only up to the expiry, only while the bound subject is active in that very transaction, and
      only with the subject and login time some approval of the then pending code bound to it. */
  lemma DoneIsEarned(interval: Time, t: Time, ops: seq<Op>, poll: Poll) returns (k: nat)
    requires Runnable(interval, Start(t), ops)
    requires Answered(interval, After(interval, Start(t), ops).devices, poll).Done?
    ensures var w := After(interval, Start(t), ops);
      var a := Answered(interval, w.devices, poll);
      && poll.code in w.devices && poll.now <= w.devices[poll.code].expiresAt
      && a.subject in poll.active && poll.accessOk
      && ApprovedBy(interval, t, ops, k, poll.code, w.devices[poll.code])
      && ops[k].subject == a.subject && ops[k].authTime == a.authTime
  {
    k := ApprovalIsOnRecord(interval, t, ops, poll.code);
  }

  // ---------- refused polls ----------

  ghost predicate RefusedPoll(interval: Time, w: World, op: Op) {
    op.PollOp? && Answered(interval, w.devices, op.poll) == AccountRefused
  }

  /** The run without the polls refused for their account. */
  ghost function WithoutRefused(interval: Time, w: World, ops: seq<Op>): seq<Op>
    decreases |ops|
  {
    if ops == [] then []
    else (if RefusedPoll(interval, w, ops[0]) then []
        else [ops[0]]) + WithoutRefused(interval, Next(interval, w, ops[0]), ops[1..])
  }

  /** A poll refused for its account leaves the approved code as it was: whatever the run, striking out all such polls
      leaves a run with the same codes, the same Done answers and the same polls while pending. */
  lemma {:induction false} RefusedPollsLeaveNoTrace(interval: Time, w: World, v: World, ops: seq<Op>)
    requires Runnable(interval, w, ops) && v == w.(clock := v.clock) && v.clock <= w.clock
    ensures Runnable(interval, v, WithoutRefused(interval, w, ops))
    ensures After(interval, v, WithoutRefused(interval, w, ops)).devices == After(interval, w, ops).devices
    ensures After(interval, v, WithoutRefused(interval, w, ops)).done == After(interval, w, ops).done
    ensures After(interval, v, WithoutRefused(interval, w, ops)).waits == After(interval, w, ops).waits
    decreases |ops|
  {
    if ops == [] {
    } else {
      var op, rest, w2 := ops[0], ops[1..], Next(interval, w, ops[0]);
      var kept := WithoutRefused(interval, w2, rest);
      if RefusedPoll(interval, w, op) {
        assert w2.devices == w.devices;
        RefusedPollsLeaveNoTrace(interval, w2, v, rest);
        assert WithoutRefused(interval, w, ops) == kept;
      } else {
        RefusedPollsLeaveNoTrace(interval, w2, Next(interval, v, op), rest);
        assert WithoutRefused(interval, w, ops)[0] == op && WithoutRefused(interval, w, ops)[1..] == kept;
      }
    }
  }

  // ---------- approval after expiry ----------

  /** An expired code is approved exactly when the login is known to have been before the expiry. */
  lemma ApprovedLateExactlyWhen(interval: Time, w: World, op: Op, authTime: Option<Time>, c: Code)
    requires op.ApproveOp? && op.authTime == LoginTime(authTime, op.at)
    requires c in w.devices && w.devices[c].userCode == op.userCode && w.devices[c].phase == Pending
    requires w.devices[c].expiresAt <= op.at
    ensures Next(interval, w, op).devices[c].phase == Approved
       <==> authTime.Some? && authTime.value < w.devices[c].expiresAt
  {
  }

  /** A login from before the code was handed out approves it a minute after it expired. */
  lemma ApprovedLate(interval: Time, t: Time, expiresAt: Time) returns (ops: seq<Op>)
    requires t < expiresAt
    ensures Runnable(interval, Start(t), ops) && 0 in After(interval, Start(t), ops).devices
    ensures After(interval, Start(t), ops).devices[0].phase == Approved
    ensures After(interval, Start(t), ops).devices[0].expiresAt + MINUTE == After(interval, Start(t), ops).clock
  {
    var store, approve := Store(t, 0, 0, 0, expiresAt), ApproveOp(expiresAt + MINUTE, 0, 0, t);
    ops := [store] + [approve];
    AfterLast(interval, Start(t), [store], approve);
    AfterLast(interval, Start(t), [], store);
    assert [] + [store] == [store];
  }

  lemma {:induction false} DoneOnlyGrows(interval: Time, w: World, ops: seq<Op>)
    ensures w.done <= After(interval, w, ops).done
    decreases |ops|
  {
    if ops == [] {
    } else {
      DoneOnlyGrows(interval, Next(interval, w, ops[0]), ops[1..]);
    }
  }

  /** Late or not, once expired a code is never answered Done in any run. */
  lemma {:induction false} ExpiredIsNeverDone(interval: Time, w: World, ops: seq<Op>, c: Code)
    requires RowsOk(w) && Runnable(interval, w, ops) && c in w.codes
    requires c in w.devices ==> w.devices[c].expiresAt < w.clock
    ensures |w.done| <= |After(interval, w, ops).done|
    ensures forall k :: |w.done| <= k < |After(interval, w, ops).done| ==> After(interval, w, ops).done[k].code != c
    decreases |ops|
  {
    if ops == [] {
    } else {
      StepMovesForward(interval, w, ops[0]);
      ExpiredIsNeverDone(interval, Next(interval, w, ops[0]), ops[1..], c);
      DoneOnlyGrows(interval, Next(interval, w, ops[0]), ops[1..]);
    }
  }

  // ---------- cadence ----------

  predicate Served(p: PendingPoll, from: Time, to: Time) {
    !p.slow && from <= p.at <= to
  }

  function CountServed(waits: seq<PendingPoll>, from: Time, to: Time): nat {
    if waits == [] then 0
    else CountServed(waits[..|waits| - 1], from, to) + (if Served(waits[|waits| - 1], from, to) then 1 else 0)
  }

  lemma {:induction false} NothingLater(interval: Time, waits: seq<PendingPoll>, from: Time, to: Time, to2: Time)
    requires Cadence(interval, waits) && (waits != [] ==> waits[|waits| - 1].at <= to <= to2)
    ensures CountServed(waits, from, to) == CountServed(waits, from, to2)
  {
    if waits == [] {
    } else {
      var front := waits[..|waits| - 1];
      assert forall k :: 0 <= k < |front| ==> front[k] == waits[k];
      NothingLater(interval, front, from, to, to2);
    }
  }

  /** `n` events at least an interval apart fit between the two moments. */
  predicate Fits(n: nat, interval: Time, from: Time, to: Time) {
    n == 0 || (from <= to && (n - 1) * interval <= to - from)
  }

  lemma OneMoreFits(n: nat, interval: Time, from: Time, at: Time, to: Time)
    requires interval > 0 && from <= at <= to && Fits(n, interval, from, at - interval)
    ensures Fits(n + 1, interval, from, to)
  {
    assert n > 0 ==> (n - 1) * interval + interval == n * interval;
  }

  /** Between two moments at most one poll per interval, plus one, is answered otherwise than slow down. */
  lemma {:induction false} PollsAreSpaced(interval: Time, waits: seq<PendingPoll>, from: Time, to: Time)
    requires interval > 0 && Cadence(interval, waits)
    ensures Fits(CountServed(waits, from, to), interval, from, to)
    decreases |waits|
  {
    if waits == [] {
    } else {
      var n := |waits| - 1;
      var front, last := waits[..n], waits[n];
      assert forall k :: 0 <= k < |front| ==> front[k] == waits[k];
      if Served(last, from, to) {
        var earlier := last.at - interval;
        NothingLater(interval, front, from, earlier, to);
        PollsAreSpaced(interval, front, from, earlier);
        OneMoreFits(CountServed(front, from, earlier), interval, from, last.at, to);
      } else {
        PollsAreSpaced(interval, front, from, to);
      }
    }
  }

  lemma FitsMeansQuotient(n: nat, interval: Time, length: Time)
    requires interval > 0 && length >= 0 && (n == 0 || (n - 1) * interval <= length)
    ensures n <= length / interval + 1
  {
    var q := length / interval;
    assert length < (q + 1) * interval;
    assert n > 0 ==> (n - 1) * interval < (q + 1) * interval;
  }

  /** The law for every run: the polls made while a code is pending keep the cadence, so in a stretch of length L
      at most L / interval + 1 of them are answered otherwise than slow down. */
  lemma PendingPollsAreSpaced(interval: Time, t: Time, ops: seq<Op>, c: Code, from: Time, length: Time)
    requires interval > 0 && length >= 0 && Runnable(interval, Start(t), ops) &&
      c in After(interval, Start(t), ops).waits
    ensures Cadence(interval, After(interval, Start(t), ops).waits[c])
    ensures CountServed(After(interval, Start(t), ops).waits[c], from, from + length) <= length / interval + 1
  {
    var waits := After(interval, Start(t), ops).waits[c];
    RunKeeps(interval, Start(t), ops);
    PollsAreSpaced(interval, waits, from, from + length);
    FitsMeansQuotient(CountServed(waits, from, from + length), interval, length);
  }
}
