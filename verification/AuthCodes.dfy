/** Authorization codes: an auth request is created, completed by a login, given a code, and redeemed once.

Codes are stored hashed; the hash is injective, so the code itself stands for it.
*/
module AuthCodes {
  import opened Prelude

  type RequestId = nat
  type ClientId = nat
  type UserId = nat

  const REQUEST_LIFETIME: Time := 10 * MINUTE
  const EXPIRED_REQUEST_RETENTION: Time := HOUR

  /** A row of auth_requests. */
  datatype Request = Request(client: ClientId, subject: Option<UserId>, authTime: Option<Time>, done: bool,
                             code: Option<string>, expiresAt: Time)

  type Requests = map<RequestId, Request>

  /** The condition of the DELETE that redeems a code. */
  predicate Redeemable(reqs: Requests, id: RequestId, client: ClientId, code: string, now: Time) {
    && id in reqs
    && reqs[id].client == client
    && reqs[id].code == Some(code)
    && reqs[id].done
    && reqs[id].expiresAt > now
  }

  /** Completing compares the expiry with the login time, not with the present. */
  function Complete(reqs: Requests, id: RequestId, user: UserId, authTime: Time): Requests {
    if id in reqs && reqs[id].expiresAt > authTime
    then reqs[id := reqs[id].(subject := Some(user), authTime := Some(authTime), done := true)]
    else reqs
  }

  function SaveCode(reqs: Requests, id: RequestId, code: string): Requests {
    if id in reqs then reqs[id := reqs[id].(code := Some(code))] else reqs
  }

  /** How the issuing transaction goes on after the code: no refresh token, one inserted, or the insert fails. */
  datatype Insert = AccessOnly | Inserted | InsertFails

  predicate Exchanges(reqs: Requests, id: RequestId, client: ClientId, code: Option<string>, now: Time,
                      insert: Insert) {
    code.Some? && code.value != "" && Redeemable(reqs, id, client, code.value, now) && !insert.InsertFails?
  }

  function AfterExchange(reqs: Requests, id: RequestId, client: ClientId, code: Option<string>, now: Time,
                         insert: Insert): Requests {
    if Exchanges(reqs, id, client, code, now, insert) then reqs - {id} else reqs
  }

  // ---------- the storage methods ----------

  class RequestStorage {
    var requests: Requests

    constructor ()
      ensures requests == map[]
    {
      requests := map[];
    }

    /** Deletes the redeemed row; fails unless exactly one row matched. */
    method ConsumeAuthCode(id: RequestId, client: ClientId, code: Option<string>, now: Time) returns (ok: bool)
      modifies this
      ensures ok <==> code.Some? && code.value != "" && Redeemable(old(requests), id, client, code.value, now)
      ensures requests == if ok then old(requests) - {id} else old(requests)
    {
      if code.None? || code.value == "" {
        return false;
      }
      var matching := set i | i in requests && i == id && Redeemable(requests, i, client, code.value, now);
      requests := requests - matching;
      assert matching == if Redeemable(old(requests), id, client, code.value, now) then {id} else {};
      return |matching| == 1;
    }

    method CompleteAuthRequest(id: RequestId, user: UserId, authTime: Option<Time>, now: Time) returns (ok: bool)
      modifies this
      ensures ok <==> id in old(requests) && LoginTime(authTime, now) < old(requests)[id].expiresAt
      ensures requests == Complete(old(requests), id, user, LoginTime(authTime, now))
    {
      var login := if authTime.Some? then authTime.value else now;
      var matching := set i | i in requests && i == id && requests[i].expiresAt > login;
      requests := map i | i in requests ::
        if i in matching then requests[i].(subject := Some(user), authTime := Some(login), done := true)
            else requests[i];
      assert matching == if id in old(requests) && old(requests)[id].expiresAt > login then {id} else {};
      return |matching| != 0;
    }

    method CreateAccessToken(id: RequestId, client: ClientId, code: Option<string>, now: Time) returns (issued: bool)
      modifies this
      ensures issued == Exchanges(old(requests), id, client, code, now, AccessOnly)
      ensures requests == AfterExchange(old(requests), id, client, code, now, AccessOnly)
    {
      issued := ConsumeAuthCode(id, client, code, now);
    }

    /** One transaction: a failing insert of the refresh token rolls the redemption back. */
    method CreateAccessAndRefreshTokens(id: RequestId, client: ClientId, code: Option<string>, now: Time,
                                        insertFails: bool)
      returns (issued: bool)
      modifies this
      ensures issued == Exchanges(old(requests), id, client, code, now, if insertFails then InsertFails else Inserted)
      ensures requests == AfterExchange(old(requests), id, client, code, now, if insertFails then InsertFails
        else Inserted)
    {
      var saved := requests;
      issued := ConsumeAuthCode(id, client, code, now);
      if issued && insertFails {
        requests := saved;
        issued := false;
      }
    }
  }

  // ---------- runs ----------

  datatype Op =
    | Create(at: Time, id: RequestId, client: ClientId)
    | Finish(at: Time, id: RequestId, user: UserId, authTime: Time)
    | Save(at: Time, id: RequestId, saved: string)
    | Exchange(at: Time, id: RequestId, client: ClientId, code: Option<string>, insert: Insert)
    | Drop(at: Time, id: RequestId)
    | Clean(at: Time, now: Time, victims: set<RequestId>)

  /** `issued` lists every successful exchange. */
  datatype World = World(requests: Requests, clock: Time, ids: set<RequestId>, issued: seq<Op>)

  ghost predicate Enabled(w: World, op: Op) {
    && w.clock <= op.at
    && (op.Create? ==> op.id !in w.ids)
    && (op.Clean? ==> op.now <= op.at && forall i :: i in op.victims ==>
          i in w.requests && w.requests[i].expiresAt < op.now - EXPIRED_REQUEST_RETENTION)
  }

  function Next(w: World, op: Op): World {
    match op
    case Create(at, id, client) =>
      World(w.requests[id := Request(client, None, None, false, None, at + REQUEST_LIFETIME)], at, w.ids + {id},
          w.issued)
    case Finish(at, id, user, authTime) => w.(requests := Complete(w.requests, id, user, authTime), clock := at)
    case Save(at, id, code) => w.(requests := SaveCode(w.requests, id, code), clock := at)
    case Exchange(at, id, client, code, insert) =>
      World(AfterExchange(w.requests, id, client, code, at, insert), at, w.ids,
            if Exchanges(w.requests, id, client, code, at, insert) then w.issued + [op] else w.issued)
    case Drop(at, id) => w.(requests := w.requests - {id}, clock := at)
    case Clean(at, _, victims) => w.(requests := w.requests - victims, clock := at)
  }

  ghost predicate Runnable(w: World, ops: seq<Op>)
    decreases |ops|
  {
    ops == [] || (Enabled(w, ops[0]) && Runnable(Next(w, ops[0]), ops[1..]))
  }

  function After(w: World, ops: seq<Op>): World
    decreases |ops|
  {
    if ops == [] then w else After(Next(w, ops[0]), ops[1..])
  }

  function Start(t: Time): World {
    World(map[], t, {}, [])
  }

  /** A redeemed request is gone for good, and requests live ten minutes. */
  ghost predicate Inv(w: World) {
    && w.requests.Keys <= w.ids
    && (forall i :: i in w.requests ==> w.requests[i].expiresAt <= w.clock + REQUEST_LIFETIME)
    && (forall k :: 0 <= k < |w.issued| ==>
         w.issued[k].Exchange? && w.issued[k].id in w.ids && w.issued[k].id !in w.requests)
    && (forall j, k :: 0 <= j < k < |w.issued| ==> w.issued[j].id != w.issued[k].id)
  }

  lemma StepKeeps(w: World, op: Op)
    requires Inv(w) && Enabled(w, op)
    ensures Inv(Next(w, op))
  {
  }

  lemma {:induction false} RunKeeps(w: World, ops: seq<Op>)
    requires Inv(w) && Runnable(w, ops)
    ensures Inv(After(w, ops))
    decreases |ops|
  {
    if ops == [] {
    } else {
      StepKeeps(w, ops[0]);
      RunKeeps(Next(w, ops[0]), ops[1..]);
    }
  }

  /** Across both issuing methods and all replays, one auth request yields at most one issuance. */
  lemma OneExchangePerRequest(t: Time, ops: seq<Op>, j: nat, k: nat)
    requires Runnable(Start(t), ops) && j < k < |After(Start(t), ops).issued|
    ensures After(Start(t), ops).issued[j].Exchange? && After(Start(t), ops).issued[k].Exchange?
    ensures After(Start(t), ops).issued[j].id != After(Start(t), ops).issued[k].id
  {
    RunKeeps(Start(t), ops);
  }

  // ---------- where a redeemable code comes from ----------

  lemma {:induction false} AfterLast(w: World, ops: seq<Op>, op: Op)
    ensures After(w, ops + [op]) == Next(After(w, ops), op)
    ensures Runnable(w, ops + [op]) <==> Runnable(w, ops) && Enabled(After(w, ops), op)
    decreases |ops|
  {
    if ops == [] {
      assert ([] + [op])[1..] == [];
    } else {
      assert (ops + [op])[1..] == ops[1..] + [op];
      AfterLast(Next(w, ops[0]), ops[1..], op);
    }
  }

  ghost predicate CreatedAt(ops: seq<Op>, a: nat, id: RequestId, row: Request) {
    a < |ops| && ops[a].Create? && ops[a].id == id && ops[a].client == row.client &&
        row.expiresAt == ops[a].at + REQUEST_LIFETIME
  }

  ghost predicate CompletedAt(ops: seq<Op>, b: nat, id: RequestId, row: Request) {
    && b < |ops| && ops[b].Finish? && ops[b].id == id && ops[b].authTime < row.expiresAt
    && row.subject == Some(ops[b].user) && row.authTime == Some(ops[b].authTime)
  }

  ghost predicate SavedAt(ops: seq<Op>, c: nat, id: RequestId, row: Request) {
    c < |ops| && ops[c].Save? && ops[c].id == id && row.code == Some(ops[c].saved)
  }

  /** Every row was created by some request; if it is done a login completed it; if it has a code one was saved. */
  ghost predicate Earned(ops: seq<Op>, id: RequestId, row: Request) {
    && (exists a :: CreatedAt(ops, a, id, row))
    && (row.done ==> exists b :: CompletedAt(ops, b, id, row))
    && (row.code.Some? ==> exists c :: SavedAt(ops, c, id, row))
  }

  lemma EarnedLonger(ops: seq<Op>, op: Op, id: RequestId, row: Request)
    requires Earned(ops, id, row)
    ensures Earned(ops + [op], id, row)
  {
    var a :| CreatedAt(ops, a, id, row);
    assert CreatedAt(ops + [op], a, id, row);
    if row.done {
      var b :| CompletedAt(ops, b, id, row);
      assert CompletedAt(ops + [op], b, id, row);
    }
    if row.code.Some? {
      var c :| SavedAt(ops, c, id, row);
      assert SavedAt(ops + [op], c, id, row);
    }
  }

  lemma EarnedByLast(ops: seq<Op>, op: Op, w: World, id: RequestId)
    requires id in Next(w, op).requests && (id in w.requests ==> Earned(ops, id, w.requests[id]))
    ensures Earned(ops + [op], id, Next(w, op).requests[id])
  {
    var ops2, row := ops + [op], Next(w, op).requests[id];
    if op.Create? && op.id == id {
      assert CreatedAt(ops2, |ops|, id, row);
    } else {
      EarnedLonger(ops, op, id, w.requests[id]);
      var a :| CreatedAt(ops2, a, id, w.requests[id]);
      assert CreatedAt(ops2, a, id, row);
      if op.Finish? && op.id == id && row != w.requests[id] {
        assert CompletedAt(ops2, |ops|, id, row);
      } else if row.done {
        var b :| CompletedAt(ops2, b, id, w.requests[id]);
        assert CompletedAt(ops2, b, id, row);
      }
      if op.Save? && op.id == id {
        assert SavedAt(ops2, |ops|, id, row);
      } else if row.code.Some? {
        var c :| SavedAt(ops2, c, id, w.requests[id]);
        assert SavedAt(ops2, c, id, row);
      }
    }
  }

  lemma {:induction false} RowsAreEarned(t: Time, ops: seq<Op>, id: RequestId)
    requires Runnable(Start(t), ops) && id in After(Start(t), ops).requests
    ensures Earned(ops, id, After(Start(t), ops).requests[id])
    decreases |ops|
  {
    var n := |ops| - 1;
    assert ops == ops[..n] + [ops[n]];
    AfterLast(Start(t), ops[..n], ops[n]);
    var w := After(Start(t), ops[..n]);
    if id in w.requests {
      RowsAreEarned(t, ops[..n], id);
    }
    EarnedByLast(ops[..n], ops[n], w, id);
  }

  /** Tokens are issued for a code only if that very request was created for that client less than ten minutes
      ago, a login completed it before it expired, and that very code was saved for it. */
  lemma ExchangeIsEarned(t: Time, ops: seq<Op>, op: Op) returns (a: nat, b: nat, c: nat)
    requires Runnable(Start(t), ops) && op.Exchange?
    requires Exchanges(After(Start(t), ops).requests, op.id, op.client, op.code, op.at, op.insert)
    ensures a < |ops| && ops[a].Create? && ops[a].id == op.id && ops[a].client == op.client &&
      op.at < ops[a].at + REQUEST_LIFETIME
    ensures b < |ops| && ops[b].Finish? && ops[b].id == op.id && ops[b].authTime < ops[a].at + REQUEST_LIFETIME
    ensures After(Start(t), ops).requests[op.id].subject == Some(ops[b].user)
    ensures c < |ops| && ops[c].Save? && ops[c].id == op.id && op.code == Some(ops[c].saved)
  {
    var row := After(Start(t), ops).requests[op.id];
    RowsAreEarned(t, ops, op.id);
    a :| CreatedAt(ops, a, op.id, row);
    b :| CompletedAt(ops, b, op.id, row);
    c :| SavedAt(ops, c, op.id, row);
  }

  // ---------- failed inserts ----------

  /** The run without the exchanges whose insert failed. */
  function WithoutFailed(ops: seq<Op>): seq<Op> {
    if ops == [] then []
    else (if ops[0].Exchange? && ops[0].insert.InsertFails? then [] else [ops[0]]) + WithoutFailed(ops[1..])
  }

  /** A failed refresh-token insert leaves the code redeemable: whatever the run, striking out all failed inserts leaves
      a run with the same requests and the same issuances. */
  lemma {:induction false} FailedInsertsLeaveNoTrace(w: World, v: World, ops: seq<Op>)
    requires Runnable(w, ops) && v == w.(clock := v.clock) && v.clock <= w.clock
    ensures Runnable(v, WithoutFailed(ops))
    ensures After(v, WithoutFailed(ops)).requests == After(w, ops).requests
    ensures After(v, WithoutFailed(ops)).issued == After(w, ops).issued
    decreases |ops|
  {
    if ops == [] {
    } else {
      var op, rest := ops[0], ops[1..];
      if op.Exchange? && op.insert.InsertFails? {
        FailedInsertsLeaveNoTrace(Next(w, op), v, rest);
        assert WithoutFailed(ops) == WithoutFailed(rest);
      } else {
        FailedInsertsLeaveNoTrace(Next(w, op), Next(v, op), rest);
        assert WithoutFailed(ops)[0] == op && WithoutFailed(ops)[1..] == WithoutFailed(rest);
      }
    }
  }

  // ---------- completion after expiry ----------

  /** An expired request is completed exactly when the login is known to have been before the expiry. */
  lemma CompletedLateExactlyWhen(w: World, op: Op, authTime: Option<Time>)
    requires op.Finish? && op.authTime == LoginTime(authTime, op.at)
    requires op.id in w.requests && !w.requests[op.id].done && w.requests[op.id].expiresAt <= op.at
    ensures Next(w, op).requests[op.id].done <==> authTime.Some? && authTime.value < w.requests[op.id].expiresAt
  {
  }

  /** A login from before the request completes it a minute after it expired. */
  lemma CompletedLate(t: Time) returns (ops: seq<Op>)
    ensures Runnable(Start(t), ops) && 0 in After(Start(t), ops).requests
    ensures After(Start(t), ops).requests[0].done
    ensures After(Start(t), ops).requests[0].expiresAt + MINUTE == After(Start(t), ops).clock
  {
    var create, finish := Create(t, 0, 0), Finish(t + REQUEST_LIFETIME + MINUTE, 0, 0, t);
    ops := [create] + [finish];
    AfterLast(Start(t), [create], finish);
    AfterLast(Start(t), [], create);
    assert [] + [create] == [create];
  }

  /** Late or not, once expired a request is never redeemed in any run. */
  lemma {:induction false} ExpiredIsNeverRedeemed(w: World, ops: seq<Op>, id: RequestId)
    requires Inv(w) && Runnable(w, ops) && id in w.ids && (id in w.requests ==> w.requests[id].expiresAt <= w.clock)
    ensures |w.issued| <= |After(w, ops).issued|
    ensures forall k :: |w.issued| <= k < |After(w, ops).issued| ==>
      After(w, ops).issued[k].Exchange? && After(w, ops).issued[k].id != id
    decreases |ops|
  {
    if ops == [] {
    } else {
      StepKeeps(w, ops[0]);
      ExpiredIsNeverRedeemed(Next(w, ops[0]), ops[1..], id);
      IssuedOnlyGrows(Next(w, ops[0]), ops[1..]);
    }
  }

  lemma {:induction false} IssuedOnlyGrows(w: World, ops: seq<Op>)
    ensures w.issued <= After(w, ops).issued
    decreases |ops|
  {
    if ops == [] {
    } else {
      IssuedOnlyGrows(Next(w, ops[0]), ops[1..]);
    }
  }
}
