/** Exactly when a code is exchanged, in terms of the operations on record alone: who created the request, which logins
completed it, which code was saved last, and whether it has been redeemed or deleted since. */
module AuthAnswers {
  import opened Prelude
  import opened AuthCodes

  /** The a-th operation created this request. */
  predicate CreatedBy(ops: seq<Op>, a: nat, id: RequestId) {
    a < |ops| && ops[a].Create? && ops[a].id == id
  }

  /** The k-th operation is a login that completes the request the a-th created: one from before its expiry. */
  predicate Completes(ops: seq<Op>, a: nat, k: nat)
    requires a < |ops| && ops[a].Create?
  {
    a < k < |ops| && ops[k].Finish? && ops[k].id == ops[a].id && ops[k].authTime < ops[a].at + 10 * MINUTE
  }

  predicate Saves(ops: seq<Op>, a: nat, k: nat)
    requires a < |ops| && ops[a].Create?
  {
    a < k < |ops| && ops[k].Save? && ops[k].id == ops[a].id
  }

  predicate Deletes(ops: seq<Op>, a: nat, k: nat)
    requires a < |ops| && ops[a].Create?
  {
    && a < k < |ops|
    && ((ops[k].Drop? && ops[k].id == ops[a].id) || (ops[k].Clean? && ops[a].id in ops[k].victims))
  }

  ghost predicate IsCompleted(ops: seq<Op>, a: nat)
    requires a < |ops| && ops[a].Create?
  {
    exists k: nat :: Completes(ops, a, k)
  }

  ghost predicate LastCompletion(ops: seq<Op>, a: nat, k: nat)
    requires a < |ops| && ops[a].Create?
  {
    Completes(ops, a, k) && forall j: nat :: k < j < |ops| ==> !Completes(ops, a, j)
  }

  /** The last code saved for the request is this one. */
  ghost predicate LastSaved(ops: seq<Op>, a: nat, code: string)
    requires a < |ops| && ops[a].Create?
  {
    exists k: nat :: Saves(ops, a, k) && ops[k].saved == code && forall j: nat :: k < j < |ops| ==> !Saves(ops, a, j)
  }

  /** Tokens have been issued for this request. */
  ghost predicate IsRedeemed(w: World, id: RequestId) {
    exists k :: 0 <= k < |w.issued| && w.issued[k].Exchange? && w.issued[k].id == id
  }

  ghost predicate IsGone(ops: seq<Op>, a: nat, w: World)
    requires a < |ops| && ops[a].Create?
  {
    IsRedeemed(w, ops[a].id) || exists k: nat :: Deletes(ops, a, k)
  }

  /** The row, while there is one, says what the operations have done to the request. */
  ghost predicate Records(ops: seq<Op>, a: nat, w: World)
    requires a < |ops| && ops[a].Create?
  {
    var id := ops[a].id;
    && (id in w.requests <==> !IsGone(ops, a, w))
    && (id in w.requests ==>
          var row := w.requests[id];
          && row.client == ops[a].client && row.expiresAt == ops[a].at + 10 * MINUTE
          && (row.done <==> IsCompleted(ops, a))
          && (forall k: nat :: LastCompletion(ops, a, k) ==>
                row.subject == Some(ops[k].user) && row.authTime == Some(ops[k].authTime))
          && (row.code.None? ==> forall k: nat :: !Saves(ops, a, k))
          && (row.code.Some? ==> LastSaved(ops, a, row.code.value)))
  }

  // ---------- one more operation ----------

  lemma SameBefore(ops: seq<Op>, op: Op, a: nat, k: nat)
    requires a < |ops| && ops[a].Create? && k < |ops|
    ensures Completes(ops + [op], a, k) == Completes(ops, a, k) && Saves(ops + [op], a, k) == Saves(ops, a, k)
    ensures Deletes(ops + [op], a, k) == Deletes(ops, a, k) && (ops + [op])[k] == ops[k]
  {
  }

  lemma CompletionGrows(ops: seq<Op>, op: Op, a: nat)
    requires a < |ops| && ops[a].Create?
    ensures IsCompleted(ops + [op], a) <==> IsCompleted(ops, a) || Completes(ops + [op], a, |ops|)
  {
    if k: nat :| Completes(ops, a, k) {
      SameBefore(ops, op, a, k);
    }
    if k: nat :| Completes(ops + [op], a, k) {
      if k < |ops| {
        SameBefore(ops, op, a, k);
      }
    }
  }

  lemma LastCompletionGrows(ops: seq<Op>, op: Op, a: nat, k: nat)
    requires a < |ops| && ops[a].Create? && LastCompletion(ops + [op], a, k)
    ensures if Completes(ops + [op], a, |ops|) then k == |ops|
      else k < |ops| && LastCompletion(ops, a, k) && (ops + [op])[k] == ops[k]
  {
    forall j: nat | j < |ops| ensures Completes(ops + [op], a, j) == Completes(ops, a, j) {
      SameBefore(ops, op, a, j);
    }
  }

  lemma SavingGrows(ops: seq<Op>, op: Op, a: nat)
    requires a < |ops| && ops[a].Create?
    ensures Saves(ops + [op], a, |ops|) ==> LastSaved(ops + [op], a, op.saved)
    ensures forall code :: !Saves(ops + [op], a, |ops|) && LastSaved(ops, a, code) ==> LastSaved(ops + [op], a, code)
    ensures !Saves(ops + [op], a, |ops|) && (forall k: nat :: !Saves(ops, a, k)) ==>
      forall k: nat :: !Saves(ops + [op], a, k)
  {
    var ops2 := ops + [op];
    forall k: nat | k < |ops| ensures Saves(ops2, a, k) == Saves(ops, a, k) && ops2[k] == ops[k] {
      SameBefore(ops, op, a, k);
    }
    forall code | !Saves(ops2, a, |ops|) && LastSaved(ops, a, code) ensures LastSaved(ops2, a, code) {
      var k: nat :| Saves(ops, a, k) && ops[k].saved == code && forall j: nat :: k < j < |ops| ==> !Saves(ops, a, j);
      assert Saves(ops2, a, k) && ops2[k].saved == code;
    }
  }

  lemma GoneGrows(ops: seq<Op>, op: Op, a: nat, w: World)
    requires a < |ops| && ops[a].Create?
    ensures IsGone(ops + [op], a, Next(w, op)) <==>
      || IsGone(ops, a, w) || Deletes(ops + [op], a, |ops|)
      || (&& op.Exchange? && op.id == ops[a].id
          && Exchanges(w.requests, op.id, op.client, op.code, op.at, op.insert))
  {
    var ops2, issued2 := ops + [op], Next(w, op).issued;
    forall k: nat | k < |ops| ensures Deletes(ops2, a, k) == Deletes(ops, a, k) {
      SameBefore(ops, op, a, k);
    }
    assert forall k :: 0 <= k < |w.issued| ==> issued2[k] == w.issued[k];
    if op.Exchange? && op.id == ops[a].id && Exchanges(w.requests, op.id, op.client, op.code, op.at, op.insert) {
      assert issued2[|w.issued|] == op;
    }
    if IsGone(ops, a, w) && !IsRedeemed(w, ops[a].id) {
      var k: nat :| Deletes(ops, a, k);
      assert Deletes(ops2, a, k);
    }
  }

  /** What an operation does to a request created before. */
  lemma RowAfter(w: World, op: Op, id: RequestId)
    requires Enabled(w, op) && id in w.ids
    ensures id in Next(w, op).requests <==>
      && id in w.requests && !(op.Drop? && op.id == id) && !(op.Clean? && id in op.victims)
      && !(op.Exchange? && op.id == id && Exchanges(w.requests, op.id, op.client, op.code, op.at, op.insert))
    ensures id in Next(w, op).requests ==>
      var row, row2 := w.requests[id], Next(w, op).requests[id];
      && row2.client == row.client && row2.expiresAt == row.expiresAt
      && row2.done == (row.done || (op.Finish? && op.id == id && op.authTime < row.expiresAt))
      && (if op.Finish? && op.id == id && op.authTime < row.expiresAt
          then row2.subject == Some(op.user) && row2.authTime == Some(op.authTime)
          else row2.subject == row.subject && row2.authTime == row.authTime)
      && row2.code == (if op.Save? && op.id == id then Some(op.saved) else row.code)
  {
  }

  lemma OneMoreRecord(ops: seq<Op>, op: Op, a: nat, w: World)
    requires a < |ops| && ops[a].Create? && Enabled(w, op) && ops[a].id in w.ids && Records(ops, a, w)
    ensures Records(ops + [op], a, Next(w, op))
  {
    RowAfter(w, op, ops[a].id);
    CompletionGrows(ops, op, a);
    SavingGrows(ops, op, a);
    GoneGrows(ops, op, a, w);
    if ops[a].id in Next(w, op).requests {
      var row2 := Next(w, op).requests[ops[a].id];
      forall k: nat | LastCompletion(ops + [op], a, k)
        ensures row2.subject == Some((ops + [op])[k].user) && row2.authTime == Some((ops + [op])[k].authTime)
      {
        LastCompletionGrows(ops, op, a, k);
      }
    }
  }

  lemma FirstRecord(ops: seq<Op>, op: Op, w: World)
    requires op.Create? && Enabled(w, op) && Inv(w)
    ensures Records(ops + [op], |ops|, Next(w, op))
  {
    assert !IsRedeemed(Next(w, op), op.id);
  }

  lemma {:induction false} CreatedIsKnown(w: World, ops: seq<Op>, a: nat, id: RequestId)
    requires CreatedBy(ops, a, id) || id in w.ids
    ensures id in After(w, ops).ids
    decreases |ops|
  {
    if ops == [] {
    } else {
      var w2 := Next(w, ops[0]);
      assert id !in w2.ids ==> a > 0 && ops[1..][a - 1] == ops[a];
      CreatedIsKnown(w2, ops[1..], if a > 0 then a - 1 else 0, id);
    }
  }

  lemma {:induction false} RowsAreRecords(t: Time, ops: seq<Op>, a: nat, id: RequestId)
    requires Runnable(Start(t), ops) && CreatedBy(ops, a, id)
    ensures Records(ops, a, After(Start(t), ops))
    decreases |ops|
  {
    var n := |ops| - 1;
    var front, op := ops[..n], ops[n];
    assert ops == front + [op];
    AfterLast(Start(t), front, op);
    RunKeeps(Start(t), front);
    if a == n {
      FirstRecord(front, op, After(Start(t), front));
    } else {
      assert CreatedBy(front, a, id);
      CreatedIsKnown(Start(t), front, a, id);
      RowsAreRecords(t, front, a, id);
      OneMoreRecord(front, op, a, After(Start(t), front));
    }
  }

  // ---------- the exchange ----------

  /** In every run, an exchange yields tokens exactly if the request was created for this client less than ten
      minutes ago, some login from before its expiry completed it, this very code is the last one saved for it and
      not empty, it has neither been redeemed nor deleted since, and the insert does not fail. They are for the
      subject and login of the last login that completed it. */
  lemma ExchangedExactlyWhen(t: Time, ops: seq<Op>, a: nat, op: Op)
    requires Runnable(Start(t), ops) && op.Exchange? && CreatedBy(ops, a, op.id)
    ensures var w := After(Start(t), ops);
      Exchanges(w.requests, op.id, op.client, op.code, op.at, op.insert) <==>
        && op.client == ops[a].client && op.at < ops[a].at + 10 * MINUTE
        && IsCompleted(ops, a) && !IsGone(ops, a, w)
        && op.code.Some? && op.code.value != "" && LastSaved(ops, a, op.code.value) && !op.insert.InsertFails?
    ensures var w := After(Start(t), ops);
      op.id in w.requests ==> forall k: nat :: LastCompletion(ops, a, k) ==>
        w.requests[op.id].subject == Some(ops[k].user) && w.requests[op.id].authTime == Some(ops[k].authTime)
  {
    RowsAreRecords(t, ops, a, op.id);
    if op.code.Some? && LastSaved(ops, a, op.code.value) && op.id in After(Start(t), ops).requests {
      LastCodeIsOne(ops, a, After(Start(t), ops).requests[op.id].code, op.code.value);
    }
  }

  lemma LastCodeIsOne(ops: seq<Op>, a: nat, code: Option<string>, other: string)
    requires a < |ops| && ops[a].Create? && LastSaved(ops, a, other)
    requires code.None? ==> forall k: nat :: !Saves(ops, a, k)
    requires code.Some? ==> LastSaved(ops, a, code.value)
    ensures code == Some(other)
  {
    var j: nat :| Saves(ops, a, j) && ops[j].saved == other && forall i: nat :: j < i < |ops| ==> !Saves(ops, a, i);
    var k: nat :| Saves(ops, a, k) && ops[k].saved == code.value && forall i: nat :: k < i < |ops| ==>
        !Saves(ops, a, i);
    assert j == k;
  }

  /** A request nobody created is never exchanged. */
  lemma UnknownIsNeverExchanged(t: Time, ops: seq<Op>, op: Op)
    requires Runnable(Start(t), ops) && op.Exchange? && forall a: nat :: !CreatedBy(ops, a, op.id)
    ensures !Exchanges(After(Start(t), ops).requests, op.id, op.client, op.code, op.at, op.insert)
  {
    if op.id in After(Start(t), ops).requests {
      AuthCodes.RowsAreEarned(t, ops, op.id);
      var a :| CreatedAt(ops, a, op.id, After(Start(t), ops).requests[op.id]);
      assert CreatedBy(ops, a, op.id);
    }
  }
}
