/** The invariant behind "at most one effective call a delivery row", and every step that keeps it.

    It says which process may still call Meta for a row, under which token, and whose claim may still
    be given back; and it ties confirmed rows to outbound messages.

    It does not need the conversation lock, and survives transaction timeouts. The statements about
    whole runs are in `DeliveryGuarantees`. */
module DeliverySafety {
  import opened Options
  import opened Conversations
  import opened Deliveries
  import opened DeliveryRuns

  /** The log's `i`-th call was made for `k`, and Meta did not answer 429. */
  ghost predicate EffectiveAt(log: seq<Send>, i: nat, k: Key) {
    && i < |log|
    && log[i].author.Bot? && log[i].author.key == k
    && !(log[i].answer.Refused? && log[i].answer.failure.RateLimited?)
  }

  ghost predicate Untouched(log: seq<Send>, k: Key) {
    forall i: nat :: !EffectiveAt(log, i, k)
  }

  ghost predicate AcceptedFor(log: seq<Send>, k: Key, wamid: Wamid) {
    exists i: nat :: EffectiveAt(log, i, k) && log[i].answer == Accepted(wamid)
  }

  ghost predicate AtPart(w: World, p: ProcessId, k: Key) {
    && p in w.processes && w.processes[p].Batch?
    && w.processes[p].next < |w.processes[p].parts|
    && w.processes[p].parts[w.processes[p].next].key == k
  }

  ghost predicate SendingAt(w: World, p: ProcessId, k: Key) {
    AtPart(w, p, k) && w.processes[p].phase.Sending?
  }

  /** About to put its row back to PREPARED after a 429. */
  ghost predicate RollingBackAt(w: World, p: ProcessId, k: Key) {
    && AtPart(w, p, k) && w.processes[p].phase.Failing? && w.processes[p].phase.failure.RateLimited?
    && k in w.rows && w.rows[k].token == Some(w.processes[p].phase.token)
  }

  /** Token and lease are set exactly while a row is dispatching, message and wamid exactly once it
      is confirmed. */
  ghost predicate RowShape(row: Row) {
    && (row.token.Some? <==> row.status == Dispatching)
    && (row.expiresAt.Some? <==> row.status == Dispatching)
    && (row.outbound.Some? <==> row.status == Confirmed)
    && (row.wamid.Some? <==> row.status == Confirmed)
  }

  ghost predicate RowsShaped(w: World) {
    forall k :: k in w.rows ==>
      && RowShape(w.rows[k])
      && (w.rows[k].token.Some? ==> w.rows[k].token.value < w.nextToken)
      && k.source in w.home && w.rows[k].conversation == w.home[k.source]
  }

  ghost predicate TokensIssued(w: World) {
    forall p :: p in w.processes && w.processes[p].Batch? ==>
      match w.processes[p].phase
      case Sending(t) => t < w.nextToken
      case Confirming(t, _) => t < w.nextToken
      case Failing(t, _) => t < w.nextToken
      case _ => true
  }

  /** A process about to send owns the row, unless the row has been swept; and it is alone. */
  ghost predicate SendersOwn(w: World) {
    && (forall p, k :: SendingAt(w, p, k) ==>
          && k in w.rows && Untouched(w.log, k) && w.rows[k].status != Prepared
          && (w.rows[k].status == Dispatching ==> w.rows[k].token == Some(w.processes[p].phase.token)))
    && (forall p, q, k :: SendingAt(w, p, k) && SendingAt(w, q, k) ==> p == q)
  }

  ghost predicate RollbacksSafe(w: World) {
    forall p, k :: RollingBackAt(w, p, k) ==>
      Untouched(w.log, k) && forall q :: !SendingAt(w, q, k)
  }

  ghost predicate LogSound(w: World) {
    && (forall k :: k in w.rows && w.rows[k].status == Prepared ==> Untouched(w.log, k))
    && (forall i: nat, k :: EffectiveAt(w.log, i, k) ==> k in w.rows)
    && (forall i: nat, j: nat, k :: EffectiveAt(w.log, i, k) && EffectiveAt(w.log, j, k) ==> i == j)
  }

  /** Confirmed rows and outbound messages match one to one, and each stems from an accepted call. */
  ghost predicate OutboxMatches(w: World) {
    && (forall k ::
          k in w.rows && w.rows[k].status == Confirmed && w.rows[k].outbound.Some? && w.rows[k].wamid.Some? ==>
          && w.rows[k].outbound.value < |w.outbox|
          && w.outbox[w.rows[k].outbound.value] == Outbound(k, w.rows[k].conversation, w.rows[k].wamid.value)
          && AcceptedFor(w.log, k, w.rows[k].wamid.value))
    && (forall i: nat :: i < |w.outbox| ==>
          w.outbox[i].key in w.rows && w.rows[w.outbox[i].key].outbound == Some(i))
    && (forall p, k :: AtPart(w, p, k) && w.processes[p].phase.Confirming? ==>
          AcceptedFor(w.log, k, w.processes[p].phase.wamid))
  }

  ghost predicate ClaimsSafe(w: World) {
    RowsShaped(w) && TokensIssued(w) && SendersOwn(w) && RollbacksSafe(w) && LogSound(w) && OutboxMatches(w)
  }

  lemma AppendedEffects(log: seq<Send>, e: Send, k: Key)
    ensures forall i: nat :: EffectiveAt(log + [e], i, k) <==>
              EffectiveAt(log, i, k) || (i == |log| && EffectiveAt([e], 0, k))
    ensures forall wamid :: AcceptedFor(log, k, wamid) ==> AcceptedFor(log + [e], k, wamid)
  {
    forall wamid | AcceptedFor(log, k, wamid) ensures AcceptedFor(log + [e], k, wamid) {
      var i: nat :| EffectiveAt(log, i, k) && log[i].answer == Accepted(wamid);
      assert EffectiveAt(log + [e], i, k);
    }
  }

  /** Neither between claim and answer nor between answer and outcome. */
  ghost predicate Unengaged(process: Process) {
    process.Reply? || process.phase.Reading? || process.phase.Deciding?
  }

  /** Processes that only leave, or stand between parts, disturb nothing. */
  lemma FewerEngaged(w: World, after: World)
    requires ClaimsSafe(w)
    requires after.rows == w.rows && after.outbox == w.outbox && after.log == w.log
    requires after.home == w.home && after.nextToken >= w.nextToken
    requires forall p :: p in after.processes ==>
               Unengaged(after.processes[p]) || (p in w.processes && w.processes[p] == after.processes[p])
    ensures ClaimsSafe(after)
  {
    forall p, k | SendingAt(after, p, k) ensures SendingAt(w, p, k) {
    }
    forall p, k | RollingBackAt(after, p, k) ensures RollingBackAt(w, p, k) {
    }
    forall p, k | AtPart(after, p, k) && after.processes[p].phase.Confirming? ensures AtPart(w, p, k) {
    }
  }

  /** `p` claims the prepared row of its current part. */
  ghost predicate Claims(w: World, after: World, p: ProcessId, key: Key) {
    && AtPart(w, p, key) && w.processes[p].phase.Deciding?
    && key in w.rows && w.rows[key].status == Prepared && w.rows[key].token.None?
    && after.processes == w.processes[p := w.processes[p].(phase := Sending(w.nextToken))]
    && key in after.rows && after.rows == w.rows[key := after.rows[key]]
    && RowShape(after.rows[key]) && after.rows[key].status == Dispatching
    && after.rows[key].token == Some(w.nextToken) && after.rows[key].conversation == w.rows[key].conversation
    && after.nextToken == w.nextToken + 1
    && after.log == w.log && after.outbox == w.outbox && after.home == w.home
  }

  lemma ClaimKeepsSenders(w: World, after: World, p: ProcessId, key: Key)
    requires ClaimsSafe(w) && Claims(w, after, p, key)
    ensures RowsShaped(after) && TokensIssued(after) && LogSound(after) && SendersOwn(after)
  {
    assert Untouched(w.log, key);
    forall q, k | SendingAt(after, q, k) ensures SendingAt(w, q, k) || (q == p && k == key) {
    }
  }

  lemma ClaimKeepsOutcomes(w: World, after: World, p: ProcessId, key: Key)
    requires ClaimsSafe(w) && Claims(w, after, p, key)
    ensures RollbacksSafe(after) && OutboxMatches(after)
  {
    forall q, k | RollingBackAt(after, q, k) ensures RollingBackAt(w, q, k) && k != key {
      assert after.processes[q] == w.processes[q];
    }
    forall q, k | SendingAt(after, q, k) ensures SendingAt(w, q, k) || (q == p && k == key) {
    }
    forall q, k | AtPart(after, q, k) && after.processes[q].phase.Confirming? ensures AtPart(w, q, k) {
    }
  }

  lemma SendKeepsClaimsSafe(w: World, p: ProcessId, answer: Answer)
    requires ClaimsSafe(w)
    ensures ClaimsSafe(Step(w, DoSend(p, answer)))
  {
    var after := Step(w, DoSend(p, answer));
    if after != w {
      var b := w.processes[p];
      var key := b.parts[b.next].key;
      var e := after.log[|w.log|];
      assert SendingAt(w, p, key) && AtPart(after, p, key);
      forall k ensures Untouched(w.log, k) && k != key ==> Untouched(after.log, k) {
        AppendedEffects(w.log, e, k);
      }
      forall i: nat, k | EffectiveAt(after.log, i, k)
        ensures EffectiveAt(w.log, i, k) || (i == |w.log| && k == key)
      {
        AppendedEffects(w.log, e, k);
      }
      forall q, k | SendingAt(after, q, k) ensures SendingAt(w, q, k) && k != key {
        assert SendingAt(w, q, k) && q != p;
      }
      SendKeepsRollbacks(w, after, p, key, e);
      SendKeepsOutbox(w, after, p, key, e);
    }
  }

  lemma SendKeepsRollbacks(w: World, after: World, p: ProcessId, key: Key, e: Send)
    requires ClaimsSafe(w) && SendingAt(w, p, key) && AtPart(after, p, key)
    requires after.rows == w.rows && after.log == w.log + [e] && e.author.Bot? && e.author.key == key
    requires after.processes == w.processes[p := after.processes[p]]
    requires after.processes[p].phase == match e.answer
                                         case Accepted(wamid) => Confirming(w.processes[p].phase.token, wamid)
                                         case Refused(failure) => Failing(w.processes[p].phase.token, failure)
    ensures RollbacksSafe(after)
  {
    forall q, k | RollingBackAt(after, q, k)
      ensures Untouched(after.log, k) && forall r :: !SendingAt(after, r, k)
    {
      AppendedEffects(w.log, e, k);
      if q == p {
        assert k == key;
        forall r ensures !SendingAt(after, r, k) {
          assert SendingAt(after, r, k) ==> r != p && SendingAt(w, r, k);
        }
      } else {
        assert RollingBackAt(w, q, k);
        assert !SendingAt(w, p, k);
        forall r ensures !SendingAt(after, r, k) {
          assert SendingAt(after, r, k) ==> SendingAt(w, r, k);
        }
      }
    }
  }

  lemma SendKeepsOutbox(w: World, after: World, p: ProcessId, key: Key, e: Send)
    requires ClaimsSafe(w) && SendingAt(w, p, key) && AtPart(after, p, key)
    requires after.rows == w.rows && after.outbox == w.outbox && after.log == w.log + [e]
    requires e.author.Bot? && e.author.key == key
    requires after.processes == w.processes[p := after.processes[p]]
    requires after.processes[p].phase.Confirming? ==> e.answer == Accepted(after.processes[p].phase.wamid)
    ensures OutboxMatches(after)
  {
    forall k, wamid | AcceptedFor(w.log, k, wamid) ensures AcceptedFor(after.log, k, wamid) {
      AppendedEffects(w.log, e, k);
    }
    forall q, k | AtPart(after, q, k) && after.processes[q].phase.Confirming?
      ensures AcceptedFor(after.log, k, after.processes[q].phase.wamid)
    {
      if q == p {
        assert EffectiveAt(after.log, |w.log|, k);
      } else {
        assert AtPart(w, q, k);
      }
    }
  }

  ghost predicate Adds(w: World, after: World, key: Key, row: Row) {
    && key !in w.rows && key.source in w.home && row.conversation == w.home[key.source]
    && RowShape(row) && row.status == Prepared && after.rows == w.rows[key := row]
    && after.processes == w.processes && after.log == w.log && after.outbox == w.outbox
    && after.home == w.home && after.nextToken == w.nextToken
  }

  lemma AddingKeepsSenders(w: World, after: World, key: Key, row: Row)
    requires ClaimsSafe(w) && Adds(w, after, key, row)
    ensures RowsShaped(after) && TokensIssued(after) && LogSound(after) && SendersOwn(after)
  {
    forall p, k ensures SendingAt(after, p, k) <==> SendingAt(w, p, k) {
    }
  }

  lemma AddingKeepsOutcomes(w: World, after: World, key: Key, row: Row)
    requires ClaimsSafe(w) && Adds(w, after, key, row)
    ensures RollbacksSafe(after) && OutboxMatches(after)
  {
    forall p, k ensures SendingAt(after, p, k) <==> SendingAt(w, p, k) {
    }
    forall p, k | RollingBackAt(after, p, k) ensures RollingBackAt(w, p, k) {
    }
    forall p, k ensures AtPart(after, p, k) <==> AtPart(w, p, k) {
    }
  }

  lemma PrepareKeepsClaimsSafe(w: World, key: Key, allowHandedOff: bool, turn: Option<TurnId>)
    requires ClaimsSafe(w)
    ensures ClaimsSafe(Step(w, DoPrepare(key, allowHandedOff, turn)))
  {
    hide ClaimsSafe;
    var after := Step(w, DoPrepare(key, allowHandedOff, turn));
    if after != w {
      var row := NewRow(w.home[key.source], allowHandedOff, turn);
      AddingKeepsSenders(w, after, key, row);
      AddingKeepsOutcomes(w, after, key, row);
      ClaimsSafeOf(after);
    }
  }

  lemma ClaimsSafeOf(w: World)
    requires RowsShaped(w) && TokensIssued(w) && SendersOwn(w) && RollbacksSafe(w) && LogSound(w) && OutboxMatches(w)
    ensures ClaimsSafe(w)
  {
  }

  ghost predicate Sweeps(w: World, after: World) {
    && after.processes == w.processes && after.log == w.log && after.outbox == w.outbox
    && after.home == w.home && after.nextToken == w.nextToken
    && (forall k :: k in after.rows <==> k in w.rows)
    && (forall k :: k in w.rows ==> after.rows[k] == SweptRow(w.rows[k], w.clock))
  }

  lemma SweepKeepsSenders(w: World, after: World)
    requires ClaimsSafe(w) && Sweeps(w, after)
    ensures RowsShaped(after) && TokensIssued(after) && LogSound(after) && SendersOwn(after)
  {
    forall p, k ensures SendingAt(after, p, k) <==> SendingAt(w, p, k) {
    }
  }

  lemma SweepKeepsOutcomes(w: World, after: World)
    requires ClaimsSafe(w) && Sweeps(w, after)
    ensures RollbacksSafe(after) && OutboxMatches(after)
  {
    forall p, k ensures SendingAt(after, p, k) <==> SendingAt(w, p, k) {
    }
    forall p, k | RollingBackAt(after, p, k) ensures RollingBackAt(w, p, k) {
    }
    forall p, k ensures AtPart(after, p, k) <==> AtPart(w, p, k) {
    }
  }

  lemma SweepKeepsClaimsSafe(w: World)
    requires ClaimsSafe(w)
    ensures ClaimsSafe(Step(w, DoSweep))
  {
    hide ClaimsSafe;
    var after := Step(w, DoSweep);
    SweepKeepsSenders(w, after);
    SweepKeepsOutcomes(w, after);
    ClaimsSafeOf(after);
  }

  /** A row leaves the claim phases: suppressed, rolled back, rejected or given up. */
  ghost predicate Settles(w: World, after: World, key: Key) {
    && key in w.rows && key in after.rows && after.rows == w.rows[key := after.rows[key]]
    && after.log == w.log && after.outbox == w.outbox && after.home == w.home
    && after.nextToken >= w.nextToken && after.processes == w.processes
    && RowShape(after.rows[key]) && after.rows[key].status in {Prepared, Suppressed, Rejected, Ambiguous}
    && after.rows[key].conversation == w.rows[key].conversation && w.rows[key].status in {Prepared, Dispatching}
    && (after.rows[key].status == Prepared ==> Untouched(w.log, key) && forall p :: !SendingAt(w, p, key))
  }

  lemma SettlingKeepsSenders(w: World, after: World, key: Key)
    requires ClaimsSafe(w) && Settles(w, after, key)
    ensures RowsShaped(after) && TokensIssued(after) && LogSound(after) && SendersOwn(after)
  {
    forall p, k | SendingAt(after, p, k) ensures SendingAt(w, p, k) {
    }
  }

  lemma SettlingKeepsOutcomes(w: World, after: World, key: Key)
    requires ClaimsSafe(w) && Settles(w, after, key)
    ensures RollbacksSafe(after) && OutboxMatches(after)
  {
    forall p, k | SendingAt(after, p, k) ensures SendingAt(w, p, k) {
    }
    forall p, k | RollingBackAt(after, p, k) ensures RollingBackAt(w, p, k) {
    }
    forall p, k | AtPart(after, p, k) && after.processes[p].phase.Confirming? ensures AtPart(w, p, k) {
    }
  }

  lemma SettledRowKeepsClaimsSafe(w: World, after: World, key: Key)
    requires ClaimsSafe(w) && Settles(w, after, key)
    ensures ClaimsSafe(after)
  {
    SettlingKeepsSenders(w, after, key);
    SettlingKeepsOutcomes(w, after, key);
  }

  /** A run that returns disturbs nothing by leaving. */
  lemma ReturnKeepsClaimsSafe(w: World, p: ProcessId, terminal: bool, reason: Option<Reason>)
    requires ClaimsSafe(w) && p in w.processes && w.processes[p].Batch?
    ensures ClaimsSafe(Return(w, p, terminal, reason))
  {
    FewerEngaged(w, Return(w, p, terminal, reason));
  }

  lemma ClaimsOfAdvance(w: World, p: ProcessId, ctx: Context)
    requires ClaimsSafe(w) && p in w.processes && w.processes[p].Batch? && w.processes[p].phase == Deciding
    requires w.processes[p].next < |w.processes[p].parts|
    requires var key := w.processes[p].parts[w.processes[p].next].key;
             Claim(w.rows, w.db, key, ctx, w.clock, w.nextToken).1.Claimed?
    ensures var key := w.processes[p].parts[w.processes[p].next].key;
            ClaimsSafe(Put(w.(rows := Claim(w.rows, w.db, key, ctx, w.clock, w.nextToken).0,
                              nextToken := w.nextToken + 1), p, w.processes[p].(phase := Sending(w.nextToken))))
  {
    hide WhyNot;
    var key := w.processes[p].parts[w.processes[p].next].key;
    var after := Put(w.(rows := Claim(w.rows, w.db, key, ctx, w.clock, w.nextToken).0,
                        nextToken := w.nextToken + 1), p, w.processes[p].(phase := Sending(w.nextToken)));
    assert Claims(w, after, p, key) by {
      assert RowShape(w.rows[key]);
    }
    ClaimKeepsSenders(w, after, p, key);
    ClaimKeepsOutcomes(w, after, p, key);
  }

  lemma AdvanceKeepsClaimsSafe(w: World, p: ProcessId, ctx: Context)
    requires ClaimsSafe(w) && p in w.processes && w.processes[p].Batch? && w.processes[p].phase == Deciding
    ensures ClaimsSafe(Advance(w, p, ctx))
  {
    hide ClaimsSafe;
    hide Return;
    hide WhyNot;
    var after := Advance(w, p, ctx);
    match TurnOf(w.processes[p], w.clock)
    case Skip => FewerEngaged(w, after);
    case Stop(terminal, reason) => ReturnKeepsClaimsSafe(w, p, terminal, reason);
    case Try(key) =>
      var (rows, result) := Claim(w.rows, w.db, key, ctx, w.clock, w.nextToken);
      var claimed := w.(rows := rows, nextToken := w.nextToken + 1);
      if result.Claimed? {
        ClaimsOfAdvance(w, p, ctx);
      } else {
        if rows == w.rows {
          FewerEngaged(w, claimed);
        } else {
          SuppressKeepsClaimsSafe(w, claimed, key, ctx);
        }
        ReturnKeepsClaimsSafe(claimed, p, result.terminal, Some(result.reason));
      }
  }

  lemma SuppressKeepsClaimsSafe(w: World, after: World, key: Key, ctx: Context)
    requires ClaimsSafe(w)
    requires var (rows, result) := Claim(w.rows, w.db, key, ctx, w.clock, w.nextToken);
             result.NotClaimed? && rows != w.rows && after.rows == rows
    requires after.log == w.log && after.outbox == w.outbox && after.home == w.home && after.nextToken >= w.nextToken
    requires after.processes == w.processes
    ensures ClaimsSafe(after)
  {
    hide WhyNot;
    SettledRowKeepsClaimsSafe(w, after, key);
  }

  /** `p`, whose call was accepted, confirms the row it still owns. */
  ghost predicate Confirms(w: World, after: World, p: ProcessId, key: Key) {
    && AtPart(w, p, key) && w.processes[p].phase.Confirming?
    && var phase := w.processes[p].phase;
    && OwnsClaim(w.rows, key, phase.token)
    && after.rows == Confirm(w.rows, w.outbox, key, phase.token, phase.wamid).0
    && after.outbox == Confirm(w.rows, w.outbox, key, phase.token, phase.wamid).1
    && after.log == w.log && after.home == w.home && after.nextToken == w.nextToken
    && p in after.processes && Unengaged(after.processes[p])
    && after.processes == w.processes[p := after.processes[p]]
  }

  lemma ConfirmingKeepsSenders(w: World, after: World, p: ProcessId, key: Key)
    requires ClaimsSafe(w) && Confirms(w, after, p, key)
    ensures RowsShaped(after) && TokensIssued(after) && LogSound(after) && SendersOwn(after)
  {
    forall q, k | SendingAt(after, q, k) ensures SendingAt(w, q, k) {
    }
  }

  lemma ConfirmingKeepsRollbacks(w: World, after: World, p: ProcessId, key: Key)
    requires ClaimsSafe(w) && Confirms(w, after, p, key)
    ensures RollbacksSafe(after)
  {
    forall q, k | SendingAt(after, q, k) ensures SendingAt(w, q, k) {
    }
    forall q, k | RollingBackAt(after, q, k) ensures RollingBackAt(w, q, k) {
    }
  }

  lemma ConfirmingKeepsOutbox(w: World, after: World, p: ProcessId, key: Key)
    requires ClaimsSafe(w) && Confirms(w, after, p, key)
    ensures OutboxMatches(after)
  {
    forall q, k | AtPart(after, q, k) && after.processes[q].phase.Confirming? ensures AtPart(w, q, k) && q != p {
    }
  }

  lemma ConfirmKeepsClaimsSafe(w: World, p: ProcessId, stored: bool)
    requires ClaimsSafe(w)
    ensures ClaimsSafe(Step(w, DoConfirm(p, stored)))
  {
    hide ClaimsSafe;
    var after := Step(w, DoConfirm(p, stored));
    if after != w {
      var b := w.processes[p];
      var key := b.parts[b.next].key;
      if after.rows != w.rows || after.outbox != w.outbox {
        ConfirmingKeepsSenders(w, after, p, key);
        ConfirmingKeepsRollbacks(w, after, p, key);
        ConfirmingKeepsOutbox(w, after, p, key);
        ClaimsSafeOf(after);
      } else {
        UnexpectedKeepsClaimsSafe(w, after, p, b.phase.token);
      }
    }
  }

  lemma UnexpectedKeepsClaimsSafe(w: World, after: World, p: ProcessId, token: Token)
    requires ClaimsSafe(w) && p in w.processes && w.processes[p].Batch?
    requires w.processes[p].phase.Confirming? && w.processes[p].phase.token == token
    requires after == Put(w, p, w.processes[p].(phase := Failing(token, Unexpected)))
    ensures ClaimsSafe(after)
  {
    forall q, k | SendingAt(after, q, k) ensures SendingAt(w, q, k) {
    }
    forall q, k | RollingBackAt(after, q, k) ensures RollingBackAt(w, q, k) {
    }
    forall q, k | AtPart(after, q, k) && after.processes[q].phase.Confirming? ensures AtPart(w, q, k) && q != p {
    }
  }

  lemma FailedRowKeepsClaimsSafe(w: World, after: World, p: ProcessId, key: Key)
    requires ClaimsSafe(w) && AtPart(w, p, key) && w.processes[p].phase.Failing?
    requires after == w.(rows := Fail(w.rows, key, w.processes[p].phase.token, w.processes[p].phase.failure))
    ensures ClaimsSafe(after)
  {
    if after.rows != w.rows {
      assert w.processes[p].phase.failure.RateLimited? ==> RollingBackAt(w, p, key);
      SettledRowKeepsClaimsSafe(w, after, key);
    }
  }

  lemma FailKeepsClaimsSafe(w: World, p: ProcessId)
    requires ClaimsSafe(w)
    ensures ClaimsSafe(Step(w, DoFail(p)))
  {
    hide ClaimsSafe;
    hide Return;
    if Step(w, DoFail(p)) != w {
      var b := w.processes[p];
      var key := b.parts[b.next].key;
      var failed := w.(rows := Fail(w.rows, key, b.phase.token, b.phase.failure));
      FailedRowKeepsClaimsSafe(w, failed, p, key);
      if b.phase.failure.RateLimited? {
        FewerEngaged(failed, Leave(failed, p));
      } else {
        ReturnKeepsClaimsSafe(failed, p, true, Some(FailureReason(b.phase.failure)));
      }
    }
  }

  lemma ReplyKeepsClaimsSafe(w: World, p: ProcessId, answer: Answer)
    requires ClaimsSafe(w)
    ensures ClaimsSafe(Step(w, DoReply(p, answer)))
  {
    var after := Step(w, DoReply(p, answer));
    if after != w {
      var e := after.log[|w.log|];
      forall k ensures Untouched(w.log, k) ==> Untouched(after.log, k) {
        AppendedEffects(w.log, e, k);
      }
      forall i: nat, k | EffectiveAt(after.log, i, k) ensures EffectiveAt(w.log, i, k) {
        AppendedEffects(w.log, e, k);
      }
      forall k, wamid | AcceptedFor(w.log, k, wamid) ensures AcceptedFor(after.log, k, wamid) {
        AppendedEffects(w.log, e, k);
      }
      forall q, k ensures AtPart(after, q, k) <==> AtPart(w, q, k) {
      }
      forall q, k ensures SendingAt(after, q, k) <==> SendingAt(w, q, k) {
      }
      forall q, k ensures RollingBackAt(after, q, k) <==> RollingBackAt(w, q, k) {
      }
    }
  }

  /** Steps that write no row and call nobody. */
  ghost predicate IsQuiet(a: Action) {
    || a.DoTick? || a.DoOperate? || a.DoBegin? || a.DoRead? || a.DoAuthorize? || a.DoFinishReply?
    || a.DoCrash? || a.DoTimeout?
  }

  lemma QuietStepKeepsTables(w: World, a: Action)
    requires IsQuiet(a)
    ensures var after := Step(w, a);
            && after.rows == w.rows && after.outbox == w.outbox && after.log == w.log
            && after.home == w.home && after.nextToken == w.nextToken
            && (!a.DoOperate? ==> after.db == w.db)
  {
  }

  lemma QuietStepEngagesNobody(w: World, a: Action, p: ProcessId)
    requires IsQuiet(a) && p in Step(w, a).processes
    ensures var process := Step(w, a).processes[p];
            Unengaged(process) || (p in w.processes && w.processes[p] == process)
  {
  }

  lemma QuietStepKeepsClaimsSafe(w: World, a: Action)
    requires ClaimsSafe(w) && IsQuiet(a)
    ensures ClaimsSafe(Step(w, a))
  {
    hide ClaimsSafe;
    hide Step;
    var after := Step(w, a);
    QuietStepKeepsTables(w, a);
    forall p | p in after.processes
      ensures Unengaged(after.processes[p]) || (p in w.processes && w.processes[p] == after.processes[p])
    {
      QuietStepEngagesNobody(w, a, p);
    }
    FewerEngaged(w, after);
  }

  lemma StepKeepsClaimsSafe(w: World, a: Action)
    requires ClaimsSafe(w)
    ensures ClaimsSafe(Step(w, a))
  {
    hide ClaimsSafe;
    match a
    case DoPrepare(key, allowHandedOff, turn) => PrepareKeepsClaimsSafe(w, key, allowHandedOff, turn);
    case DoSweep => SweepKeepsClaimsSafe(w);
    case DoAdvance(p, ctx) =>
      if Step(w, a) != w {
        AdvanceKeepsClaimsSafe(w, p, ctx);
      }
    case DoSend(p, answer) => SendKeepsClaimsSafe(w, p, answer);
    case DoConfirm(p, stored) => ConfirmKeepsClaimsSafe(w, p, stored);
    case DoFail(p) => FailKeepsClaimsSafe(w, p);
    case DoReply(p, answer) => ReplyKeepsClaimsSafe(w, p, answer);
    case _ => QuietStepKeepsClaimsSafe(w, a);
  }
}
