/** The delivery ledger and the outbound messages as the service updates them in place. */
module DeliveryStores {
  import opened Options
  import opened Conversations
  import opened Deliveries
  import opened DeliveryRuns
  import opened DeliveryReturns
  import opened DeliveryProgressSteps

  /** What one batch run meets from outside at its i-th part. */
  datatype Encounter = Encounter(ctx: Context, now: Time, token: Token, answer: Answer, stored: bool)

  /** How a batch run ends; a rate limit is thrown to the queue, which runs the batch again. */
  datatype BatchResult =
    Handled(confirmed: nat, terminal: bool, reason: Option<Reason>) | Thrown(failure: Failure)

  /** How the run's turn at one part ends. */
  datatype PartEnd = Sent | Stopped(terminal: bool, reason: Reason) | RateLimit(failure: Failure)

  /** The rows of one source as a run reads them: each is there, and none twice. */
  ghost predicate Listed(rows: Ledger, keys: seq<Key>) {
    (forall k :: k in keys ==> k in rows) && (forall i, j :: 0 <= i < j < |keys| ==> keys[i] != keys[j])
  }

  ghost predicate OnlyRow(was: Ledger, rows: Ledger, key: Key) {
    rows.Keys == was.Keys && forall k :: k in was && k != key ==> rows[k] == was[k]
  }

  predicate Delivers(row: Row, e: Encounter) {
    row.status != Confirmed && e.answer.Accepted? && e.stored
  }

  /** The outbound messages a run adds while passing its first `n` parts, in part order. */
  function NewMessages(rows: Ledger, keys: seq<Key>, encounters: seq<Encounter>, n: nat): seq<Outbound>
    requires n <= |keys| == |encounters| && Listed(rows, keys)
  {
    if n == 0 then []
    else
      var key, e := keys[n - 1], encounters[n - 1];
      NewMessages(rows, keys, encounters, n - 1)
      + if Delivers(rows[key], e) then [Outbound(key, rows[key].conversation, e.answer.wamid)] else []
  }

  /** What a run has done after passing its first `n` parts: all of them are confirmed, those that
      were not before by an accepted call, and no other row has changed. */
  ghost predicate Passed(before: Ledger, after: Ledger, keys: seq<Key>, encounters: seq<Encounter>, n: nat)
    requires n <= |keys| == |encounters| && Listed(before, keys)
  {
    && after.Keys == before.Keys
    && (forall k :: k in before && k !in keys[..n] ==> after[k] == before[k])
    && (forall i :: 0 <= i < n ==>
          if before[keys[i]].status == Confirmed then after[keys[i]] == before[keys[i]]
          else
            && Delivers(before[keys[i]], encounters[i])
            && after[keys[i]].status == Confirmed && after[keys[i]].wamid == Some(encounters[i].answer.wamid))
  }

  /** A run has passed `stop` parts and, beyond them, changed at most the row it stops at. */
  ghost predicate StoppedAt(before: Ledger, after: Ledger, keys: seq<Key>, encounters: seq<Encounter>, stop: nat)
    requires stop <= |keys| == |encounters| && Listed(before, keys)
  {
    Passed(before, if stop < |keys| then after[keys[stop] := before[keys[stop]]] else after, keys, encounters, stop)
  }

  lemma PassedOneMore(before: Ledger, was: Ledger, after: Ledger, keys: seq<Key>, encounters: seq<Encounter>, n: nat)
    requires n < |keys| == |encounters|
    requires Listed(before, keys) && Passed(before, was, keys, encounters, n)
    requires OnlyRow(was, after, keys[n])
    requires if before[keys[n]].status == Confirmed then after[keys[n]] == was[keys[n]]
             else
               && Delivers(before[keys[n]], encounters[n])
               && after[keys[n]].status == Confirmed && after[keys[n]].wamid == Some(encounters[n].answer.wamid)
    ensures Passed(before, after, keys, encounters, n + 1)
  {
    assert keys[..n + 1] == keys[..n] + [keys[n]];
  }

  class DeliveryStore {
    var rows: Ledger
    var outbox: seq<Outbound>

    constructor ()
      ensures rows == map[] && outbox == []
    {
      rows, outbox := map[], [];
    }

    /** Rows that are there stay as they are, whatever their status; each new operation key of the parts
        gets one row, that of its first part; and there are no other new rows. */
    method PrepareBatch(source: MessageId, kind: Kind, conversation: ConversationId, allowHandedOff: bool,
            parts: seq<Part>)
      modifies `rows
      ensures rows == PrepareParts(old(rows), source, kind, conversation, allowHandedOff, parts)
      ensures forall k :: k in rows <==> k in old(rows) || KeyOfAPart(k, source, kind, parts)
      ensures forall k :: k in old(rows) ==> rows[k] == old(rows)[k]
      ensures forall i: nat :: FirstOfItsIndex(parts, i) && Key(source, kind, parts[i].index) !in old(rows) ==>
                && Key(source, kind, parts[i].index) in rows
                && rows[Key(source, kind, parts[i].index)]
                == Row(conversation, allowHandedOff, parts[i].turn, Prepared, 0, None, None, None, None, None)
    {
      var i := 0;
      assert parts[0..] == parts;
      while i < |parts|
        invariant i <= |parts|
        invariant PrepareParts(rows, source, kind, conversation, allowHandedOff, parts[i..])
               == PrepareParts(old(rows), source, kind, conversation, allowHandedOff, parts)
      {
        var key := Key(source, kind, parts[i].index);
        assert parts[i..][1..] == parts[i + 1..];
        if key !in rows {
          rows := rows[key := NewRow(conversation, allowHandedOff, parts[i].turn)];
        }
        i := i + 1;
      }
      forall k {
        PreparingKeepsOneRowAKey(old(rows), source, kind, conversation, allowHandedOff, parts, k);
      }
    }

    method TakeClaim(db: Db, key: Key, ctx: Context, now: Time, token: Token) returns (result: ClaimResult)
      modifies `rows
      ensures (rows, result) == Claim(old(rows), db, key, ctx, now, token)
      ensures key !in old(rows) || old(rows)[key].status != Prepared ==> rows == old(rows) && result.NotClaimed?
      ensures key in old(rows) && old(rows)[key].status == Prepared && old(rows)[key].token == None ==>
                && OnlyRow(old(rows), rows, key)
                && (result.Claimed? <==> MayBeSent(old(rows)[key], db, ctx, now))
                && rows[key] == (if result.Claimed?
                                 then old(rows)[key].(status := Dispatching, token := Some(token),
                                                      expiresAt := Some(now + 60_000),
                                                      attempts := old(rows)[key].attempts + 1)
                                 else old(rows)[key].(status := Suppressed, reason := Some(result.reason)))
    {
      if key in rows && rows[key].token.None? {
        ClaimedIffItMayBeSent(rows, db, key, ctx, now, token);
      }
      hide MayBeSent;
      hide WhyNot;
      if key !in rows { return NotClaimed(true, DeliveryMissing); }
      var row := rows[key];
      if row.status != Prepared { return NotClaimed(IsTerminal(row.status), StatusReason(row)); }
      var why := WhyNot(db, row, ctx, now);
      if why.Some? {
        if row.token.None? {
          rows := rows[key := row.(status := Suppressed, reason := why)];
        }
        return NotClaimed(true, why.value);
      }
      if row.token.Some? { return NotClaimed(false, DeliveryInProgress); }
      rows := rows[key := row.(status := Dispatching, token := Some(token),
                               expiresAt := Some(now + CLAIM_LEASE_MS), attempts := row.attempts + 1)];
      result := Claimed;
    }

    /** Throws when the claim is no longer the caller's. */
    method ConfirmSend(key: Key, token: Token, wamid: Wamid) returns (ok: bool)
      modifies this
      ensures ok <==> OwnsClaim(old(rows), key, token)
      ensures if ok then (rows, outbox) == Confirm(old(rows), old(outbox), key, token, wamid)
              else rows == old(rows) && outbox == old(outbox)
      ensures ok ==>
                && OnlyRow(old(rows), rows, key) && rows[key].status == Confirmed && rows[key].wamid == Some(wamid)
                && rows[key].token == None && rows[key].expiresAt == None && rows[key].reason == None
                && rows[key].attempts == old(rows)[key].attempts && rows[key].outbound == Some(|old(outbox)|)
                && outbox == old(outbox) + [Outbound(key, old(rows)[key].conversation, wamid)]
    {
      if key !in rows || rows[key].status != Dispatching || rows[key].token != Some(token) { return false; }
      var row := rows[key];
      outbox := outbox + [Outbound(key, row.conversation, wamid)];
      rows := rows[key := row.(status := Confirmed, outbound := Some(|outbox| - 1), wamid := Some(wamid),
                               token := None, expiresAt := None, reason := None)];
      ok := true;
    }

    method HandleFailure(key: Key, token: Token, failure: Failure) returns (retry: bool)
      modifies `rows
      ensures rows == Fail(old(rows), key, token, failure)
      ensures retry <==> failure.RateLimited?
      ensures !OwnsClaim(old(rows), key, token) ==> rows == old(rows)
      ensures OwnsClaim(old(rows), key, token) ==>
                && OnlyRow(old(rows), rows, key) && rows[key].token == None && rows[key].expiresAt == None
                && (rows[key].status == Prepared <==> failure.RateLimited?)
                && (rows[key].status == Rejected <==> failure.DefinitiveRejection?)
                && (rows[key].status == Ambiguous <==> failure.AmbiguousOutcome? || failure.Unexpected?)
                && rows[key].reason == Some(if failure.Unexpected? then UnexpectedFailure else MetaCode(failure.code))
    {
      if OwnsClaim(rows, key, token) {
        rows := rows[key := rows[key].(status := FailureStatus(failure), reason := Some(FailureReason(failure)),
                                       token := None, expiresAt := None)];
      }
      retry := failure.RateLimited?;
    }

    /** A claim whose lease still runs stays its owner's. Every other claim is taken away, and its row
        is AMBIGUOUS with its attempts as they were. The count returned is by how many rows the
        ambiguous ones have become more. */
    method RecoverExpiredClaims(now: Time) returns (count: nat)
      modifies `rows
      ensures rows == Sweep(old(rows), now)
      ensures rows.Keys == old(rows).Keys
      ensures forall k, t :: OwnsClaim(rows, k, t) <==> OwnsClaim(old(rows), k, t) && !IsExpired(old(rows)[k], now)
      ensures forall k :: k in rows && !IsExpired(old(rows)[k], now) ==> rows[k] == old(rows)[k]
      ensures forall k :: k in rows && IsExpired(old(rows)[k], now) ==>
                && rows[k].status == Ambiguous && rows[k].reason == Some(ClaimExpired)
                && rows[k].attempts == old(rows)[k].attempts
                && rows[k].token == None && rows[k].expiresAt == None
      ensures ExpiredIn(rows, now) == {}
      ensures |AmbiguousIn(rows)| == |AmbiguousIn(old(rows))| + count
    {
      SweptAreAmbiguous(rows, now);
      count := |set k | k in rows && IsExpired(rows[k], now)|;
      rows := map k | k in rows :: SweptRow(rows[k], now);
    }

    /** One turn of the loop at a part that was not confirmed when the rows were read: it changes
        that row only, and ends with the row confirmed exactly when nothing stopped the turn, the row
        was claimed, Meta accepted and the answer was stored. */
    method DeliverPart(db: Db, key: Key, e: Encounter) returns (end: PartEnd)
      requires key in rows && rows[key].status != Confirmed
      modifies this
      ensures OnlyRow(old(rows), rows, key)
      ensures end.Sent? <==> rows[key].status == Confirmed
      ensures end.Sent? <==>
                  Claim(old(rows), db, key, e.ctx, e.now, e.token).1.Claimed? && e.answer.Accepted? && e.stored
      ensures end.Sent? ==> rows[key].wamid == Some(e.answer.wamid)
      ensures outbox == old(outbox)
                        + if end.Sent? then [Outbound(key, old(rows)[key].conversation, e.answer.wamid)] else []
      ensures end.Stopped? && (old(rows)[key].token.Some? ==> old(rows)[key].status == Dispatching) ==>
                Explains(rows[key].status, rows[key].reason, end.terminal, end.reason)
      ensures end.RateLimit? ==>
                && e.answer == Answer.Refused(end.failure) && end.failure.RateLimited?
                && rows[key].status == Prepared && rows[key].token == None
    {
      var operation := rows[key];
      if IsTerminal(operation.status) {
        return Stopped(true, if operation.reason.Some? then operation.reason.value else StatusName(operation.status));
      }
      if operation.status == Dispatching && operation.expiresAt.Some? && operation.expiresAt.value > e.now {
        return Stopped(false, DeliveryInProgress);
      }
      var claim := TakeClaim(db, key, e.ctx, e.now, e.token);
      if claim.NotClaimed? { return Stopped(claim.terminal, claim.reason); }
      if e.answer.Accepted? && e.stored {
        var ok := ConfirmSend(key, e.token, e.answer.wamid);
        return Sent;
      }
      var failure := if e.answer.Accepted? then Unexpected else e.answer.failure;
      var retry := HandleFailure(key, e.token, failure);
      end := if retry then RateLimit(failure) else Stopped(true, FailureReason(failure));
    }

    /** One batch run over its rows in part order, nobody else writing meanwhile. It stops at the
        first part that does not end confirmed. */
    method DeliverLockedBatch(db: Db, keys: seq<Key>, encounters: seq<Encounter>)
      returns (result: BatchResult, stop: nat)
      requires |encounters| == |keys| && Listed(rows, keys)
      modifies this
      ensures stop <= |keys| && rows.Keys == old(rows).Keys
      ensures StoppedAt(old(rows), rows, keys, encounters, stop)
      ensures stop < |keys| ==> rows[keys[stop]].status != Confirmed
      ensures outbox == old(outbox) + NewMessages(old(rows), keys, encounters, stop)
      ensures result.Handled? ==> result.confirmed == |ConfirmedAmong(rows, keys)|
      ensures stop == |keys| ==> result.Handled? && result.terminal && result.reason == None
      ensures stop < |keys| && result.Handled? ==> result.reason.Some?
      ensures stop < |keys| && result.Handled? && Shaped(old(rows)) ==>
                Explains(rows[keys[stop]].status, rows[keys[stop]].reason, result.terminal, result.reason.value)
      ensures result.Thrown? ==>
                && stop < |keys| && encounters[stop].answer == Answer.Refused(result.failure)
                && result.failure.RateLimited?
                && rows[keys[stop]].status == Prepared && rows[keys[stop]].token == None
    {
      var operations := rows;
      var confirmed := CountConfirmed(SnapshotOf(rows, keys));
      CountIsCardinality(rows, keys);
      NothingDone(rows, outbox, keys, encounters, confirmed);
      stop := 0;
      hide WellUpTo;
      hide StoppedAt;
      hide NewMessages;
      hide Claim;
      hide ConfirmedAmong;
      hide CountConfirmed;
      hide SnapshotOf;
      hide Explains;
      hide Shaped;
      hide OnlyRow;
      hide Delivers;
      hide Listed;
      while stop < |keys|
        invariant stop <= |keys| && Listed(operations, keys)
        invariant WellUpTo(operations, old(outbox), rows, outbox, keys, encounters, stop, confirmed)
      {
        var key, e := keys[stop], encounters[stop];
        ghost var was, sent := rows, outbox;
        ghost var count := confirmed;
        NotYetDone(operations, old(outbox), rows, outbox, keys, encounters, stop, confirmed);
        if operations[key].status != Confirmed {
          var end := DeliverPart(db, key, e);
          if !end.Sent? {
            StopsHere(operations, old(outbox), was, sent, rows, keys, encounters, stop, confirmed);
            result := if end.RateLimit? then Thrown(end.failure)
                      else Handled(confirmed, end.terminal, Some(end.reason));
            return;
          }
          confirmed := confirmed + 1;
        }
        DoneOneMore(operations, old(outbox), was, sent, rows, outbox, keys, encounters, stop, count, confirmed);
        stop := stop + 1;
      }
      AllDone(operations, old(outbox), rows, outbox, keys, encounters, confirmed);
      result := Handled(confirmed, true, None);
    }
  }

  /** The state of a run before its part `n`: it has passed the parts before, added their messages, and
      counted what is confirmed. */
  ghost predicate WellUpTo(before: Ledger, start: seq<Outbound>, rows: Ledger, outbox: seq<Outbound>, keys: seq<Key>,
        encounters: seq<Encounter>, n: nat, confirmed: nat)
    requires n <= |keys| == |encounters| && Listed(before, keys)
  {
    && Passed(before, rows, keys, encounters, n) && outbox == start + NewMessages(before, keys, encounters, n)
    && confirmed == |ConfirmedAmong(rows, keys)|
  }

  lemma NothingDone(rows: Ledger, outbox: seq<Outbound>, keys: seq<Key>, encounters: seq<Encounter>, confirmed: nat)
    requires |keys| == |encounters| && Listed(rows, keys) && confirmed == |ConfirmedAmong(rows, keys)|
    ensures WellUpTo(rows, outbox, rows, outbox, keys, encounters, 0, confirmed)
  {
    NothingPassed(rows, keys, encounters);
    assert outbox + [] == outbox;
  }

  lemma NotYetDone(before: Ledger, start: seq<Outbound>, rows: Ledger, outbox: seq<Outbound>, keys: seq<Key>,
        encounters: seq<Encounter>, n: nat, confirmed: nat)
    requires n < |keys| == |encounters| && Listed(before, keys)
    requires WellUpTo(before, start, rows, outbox, keys, encounters, n, confirmed)
    ensures keys[n] in rows && keys[n] in before && rows[keys[n]] == before[keys[n]]
    ensures Shaped(before) && before[keys[n]].token.Some? ==> before[keys[n]].status == Dispatching
  {
    NotYetPassed(before, rows, keys, encounters, n);
  }

  lemma DoneOneMore(before: Ledger, start: seq<Outbound>, was: Ledger, sent: seq<Outbound>, rows: Ledger,
        outbox: seq<Outbound>, keys: seq<Key>, encounters: seq<Encounter>, n: nat, count: nat, confirmed: nat)
    requires n < |keys| == |encounters| && Listed(before, keys)
    requires WellUpTo(before, start, was, sent, keys, encounters, n, count)
    requires keys[n] in before
    requires if before[keys[n]].status == Confirmed then rows == was && outbox == sent && confirmed == count
             else
               && Delivers(before[keys[n]], encounters[n]) && OnlyRow(was, rows, keys[n]) && keys[n] in was
               && rows[keys[n]].status == Confirmed && rows[keys[n]].wamid == Some(encounters[n].answer.wamid)
               && outbox == sent + [Outbound(keys[n], was[keys[n]].conversation, encounters[n].answer.wamid)]
               && confirmed == count + 1
    ensures WellUpTo(before, start, rows, outbox, keys, encounters, n + 1, confirmed)
  {
    NotYetPassed(before, was, keys, encounters, n);
    OneMoreMessage(before, keys, encounters, n, start, sent);
    hide NewMessages;
    if before[keys[n]].status != Confirmed {
      OneMoreConfirmed(was, rows, keys, keys[n]);
    } else {
      assert OnlyRow(was, rows, keys[n]);
    }
    PassedOneMore(before, was, rows, keys, encounters, n);
  }

  lemma StopsHere(before: Ledger, start: seq<Outbound>, was: Ledger, outbox: seq<Outbound>, rows: Ledger,
        keys: seq<Key>, encounters: seq<Encounter>, n: nat, confirmed: nat)
    requires n < |keys| == |encounters| && Listed(before, keys)
    requires WellUpTo(before, start, was, outbox, keys, encounters, n, confirmed)
    requires OnlyRow(was, rows, keys[n]) && keys[n] in was
    requires was[keys[n]].status != Confirmed && rows[keys[n]].status != Confirmed
    ensures StoppedAt(before, rows, keys, encounters, n) && confirmed == |ConfirmedAmong(rows, keys)|
    ensures rows.Keys == before.Keys && outbox == start + NewMessages(before, keys, encounters, n)
  {
    NotYetPassed(before, was, keys, encounters, n);
    SameConfirmed(was, rows, keys, keys[n]);
    SettingBack(before, was, rows, keys, encounters, n);
  }

  lemma AllDone(before: Ledger, start: seq<Outbound>, rows: Ledger, outbox: seq<Outbound>, keys: seq<Key>,
        encounters: seq<Encounter>, confirmed: nat)
    requires |keys| == |encounters| && Listed(before, keys)
    requires WellUpTo(before, start, rows, outbox, keys, encounters, |keys|, confirmed)
    ensures StoppedAt(before, rows, keys, encounters, |keys|) && rows.Keys == before.Keys
    ensures outbox == start + NewMessages(before, keys, encounters, |keys|) && confirmed == |ConfirmedAmong(rows, keys)|
  {
    AllPassed(before, rows, keys, encounters);
  }

  lemma OneMoreMessage(before: Ledger, keys: seq<Key>, encounters: seq<Encounter>, n: nat,
                       start: seq<Outbound>, outbox: seq<Outbound>)
    requires n < |keys| == |encounters| && Listed(before, keys)
    requires outbox == start + NewMessages(before, keys, encounters, n)
    ensures var key, e := keys[n], encounters[n];
            start + NewMessages(before, keys, encounters, n + 1)
            == outbox
              + if Delivers(before[key], e) then [Outbound(key, before[key].conversation, e.answer.wamid)] else []
  {
  }

  lemma NothingPassed(rows: Ledger, keys: seq<Key>, encounters: seq<Encounter>)
    requires |keys| == |encounters| && Listed(rows, keys)
    ensures Passed(rows, rows, keys, encounters, 0) && NewMessages(rows, keys, encounters, 0) == []
  {
  }

  lemma AllPassed(before: Ledger, rows: Ledger, keys: seq<Key>, encounters: seq<Encounter>)
    requires |keys| == |encounters| && Listed(before, keys) && Passed(before, rows, keys, encounters, |keys|)
    ensures StoppedAt(before, rows, keys, encounters, |keys|)
  {
  }

  lemma NotYetPassed(before: Ledger, rows: Ledger, keys: seq<Key>, encounters: seq<Encounter>, n: nat)
    requires n < |keys| == |encounters| && Listed(before, keys)
    requires Passed(before, rows, keys, encounters, n)
    ensures keys[n] in rows && rows[keys[n]] == before[keys[n]] && rows.Keys == before.Keys
    ensures keys[n] in keys && Listed(rows, keys)
    ensures StoppedAt(before, rows, keys, encounters, n)
  {
    assert rows[keys[n] := before[keys[n]]] == rows by { assert keys[n] !in keys[..n]; }
    assert keys[n] !in keys[..n];
  }

  /** Passing does not depend on the row a run stops at. */
  lemma SettingBack(before: Ledger, was: Ledger, rows: Ledger, keys: seq<Key>, encounters: seq<Encounter>, n: nat)
    requires n < |keys| == |encounters| && Listed(before, keys)
    requires Passed(before, was, keys, encounters, n)
    requires OnlyRow(was, rows, keys[n])
    ensures StoppedAt(before, rows, keys, encounters, n)
  {
    NotYetPassed(before, was, keys, encounters, n);
    assert rows[keys[n] := before[keys[n]]] == was;
  }

  lemma SameConfirmed(was: Ledger, rows: Ledger, keys: seq<Key>, key: Key)
    requires OnlyRow(was, rows, key) && Listed(was, keys) && key in keys
    requires was[key].status != Confirmed && rows[key].status != Confirmed
    ensures ConfirmedAmong(rows, keys) == ConfirmedAmong(was, keys)
  {
  }

  lemma OneMoreConfirmed(was: Ledger, rows: Ledger, keys: seq<Key>, key: Key)
    requires OnlyRow(was, rows, key) && Listed(was, keys) && key in keys
    requires was[key].status != Confirmed && rows[key].status == Confirmed
    ensures |ConfirmedAmong(rows, keys)| == |ConfirmedAmong(was, keys)| + 1
  {
    assert ConfirmedAmong(rows, keys) == ConfirmedAmong(was, keys) + {key};
  }
}
