/** What becomes of a row follows from what Meta answered to its one effective call. */
module DeliveryOutcomes {
  import opened Options
  import opened Conversations
  import opened Deliveries
  import opened DeliveryRuns
  import opened DeliverySafety
  import opened DeliveryGuarantees

  /** A call for `k` was definitively rejected, for the reason given. */
  ghost predicate RejectedFor(log: seq<Send>, k: Key, reason: Option<Reason>) {
    exists i: nat, code: nat ::
      EffectiveAt(log, i, k) && log[i].answer == Answer.Refused(DefinitiveRejection(code))
        && reason == Some(MetaCode(code))
  }

  ghost predicate RejectionsAnswered(w: World) {
    && (forall k :: k in w.rows && w.rows[k].status == Rejected ==> RejectedFor(w.log, k, w.rows[k].reason))
    && (forall p, k :: AtPart(w, p, k) && w.processes[p].phase.Failing?
                       && w.processes[p].phase.failure.DefinitiveRejection? ==>
          RejectedFor(w.log, k, Some(FailureReason(w.processes[p].phase.failure))))
  }

  ghost predicate SuppressedUncalled(w: World) {
    forall k :: k in w.rows && w.rows[k].status == Suppressed ==> Untouched(w.log, k) && forall p :: !SendingAt(w, p, k)
  }

  lemma AppendedRejections(log: seq<Send>, e: Send, k: Key, reason: Option<Reason>)
    requires RejectedFor(log, k, reason)
    ensures RejectedFor(log + [e], k, reason)
  {
    var i: nat, code: nat :| EffectiveAt(log, i, k) && log[i].answer == Answer.Refused(DefinitiveRejection(code))
                             && reason == Some(MetaCode(code));
    assert EffectiveAt(log + [e], i, k) && (log + [e])[i] == log[i];
  }

  /** A row that a step rejects was rejected by Meta: the process at it had that answer. */
  ghost predicate RejectsOnlyAnswered(w: World, after: World) {
    && after.log == w.log
    && (forall k :: k in after.rows && after.rows[k].status == Rejected ==>
          || (k in w.rows && w.rows[k].status == Rejected && after.rows[k].reason == w.rows[k].reason)
          || exists p :: FailsAt(w, p, k) && w.processes[p].phase.failure.DefinitiveRejection?
                         && after.rows[k].reason == Some(FailureReason(w.processes[p].phase.failure)))
    && (forall p, k :: FailsAt(after, p, k) && after.processes[p].phase.failure.DefinitiveRejection? ==>
          FailsAt(w, p, k) && after.processes[p].phase.failure == w.processes[p].phase.failure)
  }

  ghost predicate FailsAt(w: World, p: ProcessId, k: Key) {
    AtPart(w, p, k) && w.processes[p].phase.Failing?
  }

  lemma AnsweredStays(w: World, after: World)
    requires RejectionsAnswered(w) && RejectsOnlyAnswered(w, after)
    ensures RejectionsAnswered(after)
  {
    forall p, k | AtPart(after, p, k) && after.processes[p].phase.Failing?
                  && after.processes[p].phase.failure.DefinitiveRejection?
      ensures RejectedFor(after.log, k, Some(FailureReason(after.processes[p].phase.failure)))
    {
      assert FailsAt(after, p, k);
    }
  }

  lemma ClaimRow(rows: Ledger, db: Db, key: Key, ctx: Context, now: Time, token: Token, k: Key)
    ensures var (after, result) := Claim(rows, db, key, ctx, now, token);
            && after.Keys == rows.Keys
            && (k in rows ==>
                  || after[k] == rows[k]
                  || (k == key && rows[k].status == Prepared
                      && after[k].status == if result.Claimed? then Dispatching else Suppressed))
            && (result.Claimed? ==> key in rows && rows[key].status == Prepared && after[key].status == Dispatching)
  {
    hide WhyNot;
  }

  /** What one turn of the loop does to a row, and who may call after it. */
  lemma AdvanceRow(w: World, p: ProcessId, ctx: Context, k: Key)
    requires p in w.processes && w.processes[p].Batch?
    ensures var after := Advance(w, p, ctx);
            && after.log == w.log && after.rows.Keys == w.rows.Keys
            && (k in w.rows ==>
                  || after.rows[k] == w.rows[k]
                  || (w.rows[k].status == Prepared && after.rows[k].status in {Dispatching, Suppressed}))
  {
    hide Claim;
    hide TurnOf;
    hide ConfirmedRows;
    match TurnOf(w.processes[p], w.clock)
    case Try(key) => ClaimRow(w.rows, w.db, key, ctx, w.clock, w.nextToken, k);
    case _ =>
  }

  lemma AdvanceProcess(w: World, p: ProcessId, ctx: Context, q: ProcessId)
    requires p in w.processes && w.processes[p].Batch? && w.processes[p].phase == Deciding
    requires q in Advance(w, p, ctx).processes
    ensures q in w.processes && (q != p ==> Advance(w, p, ctx).processes[q] == w.processes[q])
    ensures q != p || Unengaged(Advance(w, p, ctx).processes[q])
         || exists k :: AtPart(w, p, k) && AtPart(Advance(w, p, ctx), p, k)
                        && k in w.rows && w.rows[k].status == Prepared
                        && Advance(w, p, ctx).rows[k].status == Dispatching
                        && Advance(w, p, ctx).processes[q].phase.Sending?
  {
    hide Claim;
    hide ConfirmedRows;
    match TurnOf(w.processes[p], w.clock)
    case Try(key) => ClaimRow(w.rows, w.db, key, ctx, w.clock, w.nextToken, key);
    case _ =>
  }

  lemma AdvanceRejectsNothing(w: World, p: ProcessId, ctx: Context)
    requires p in w.processes && w.processes[p].Batch? && w.processes[p].phase == Deciding
    ensures RejectsOnlyAnswered(w, Advance(w, p, ctx))
  {
    hide Advance;
    var after := Advance(w, p, ctx);
    forall k | k in after.rows && after.rows[k].status == Rejected
      ensures k in w.rows && w.rows[k].status == Rejected && after.rows[k].reason == w.rows[k].reason
    {
      AdvanceRow(w, p, ctx, k);
    }
    forall q, k | FailsAt(after, q, k) ensures FailsAt(w, q, k) && after.processes[q] == w.processes[q] {
      AdvanceProcess(w, p, ctx, q);
    }
    AdvanceRow(w, p, ctx, Key(0, HermesReply, 0));
  }

  lemma FailRow(rows: Ledger, key: Key, token: Token, failure: Failure, k: Key)
    requires k in Fail(rows, key, token, failure) && Fail(rows, key, token, failure)[k].status == Rejected
    ensures k in rows
    ensures || (rows[k].status == Rejected && Fail(rows, key, token, failure)[k].reason == rows[k].reason)
            || (k == key && failure.DefinitiveRejection?
                && Fail(rows, key, token, failure)[k].reason == Some(FailureReason(failure)))
  {
  }

  lemma FailShape(w: World, p: ProcessId)
    requires p in w.processes && w.processes[p].Batch? && w.processes[p].phase.Failing?
    requires w.processes[p].next < |w.processes[p].parts|
    ensures var b, after := w.processes[p], Step(w, DoFail(p));
            && after.rows == Fail(w.rows, b.parts[b.next].key, b.phase.token, b.phase.failure)
            && after.log == w.log && after.processes == w.processes - {p}
  {
    hide Fail;
    hide ConfirmedRows;
  }

  lemma FailRejectsAnswered(w: World, p: ProcessId)
    ensures RejectsOnlyAnswered(w, Step(w, DoFail(p)))
  {
    if p in w.processes && w.processes[p].Batch? && w.processes[p].phase.Failing?
       && w.processes[p].next < |w.processes[p].parts|
    {
      FailShape(w, p);
      hide Step;
      hide Fail;
      var after, b := Step(w, DoFail(p)), w.processes[p];
      var key := b.parts[b.next].key;
      assert FailsAt(w, p, key);
      forall k | k in after.rows && after.rows[k].status == Rejected
        ensures || (k in w.rows && w.rows[k].status == Rejected && after.rows[k].reason == w.rows[k].reason)
                || (FailsAt(w, p, k) && b.phase.failure.DefinitiveRejection?
                    && after.rows[k].reason == Some(FailureReason(b.phase.failure)))
      {
        FailRow(w.rows, key, b.phase.token, b.phase.failure, k);
      }
      forall q, k | FailsAt(after, q, k) ensures FailsAt(w, q, k) && after.processes[q] == w.processes[q] {
      }
    }
  }

  lemma OthersRejectNothing(w: World, a: Action)
    requires a.DoPrepare? || a.DoSweep?
    ensures RejectsOnlyAnswered(w, Step(w, a))
  {
  }

  lemma ConfirmRejectsNothing(w: World, a: Action)
    requires a.DoConfirm?
    ensures RejectsOnlyAnswered(w, Step(w, a))
  {
  }

  lemma QuietStepRejectsNothing(w: World, a: Action)
    requires IsQuiet(a)
    ensures RejectsOnlyAnswered(w, Step(w, a))
  {
    hide Step;
    var after := Step(w, a);
    QuietStepKeepsTables(w, a);
    forall p, k | FailsAt(after, p, k) ensures FailsAt(w, p, k) && after.processes[p] == w.processes[p] {
      QuietStepEngagesNobody(w, a, p);
    }
  }

  lemma SendKeepsRejections(w: World, p: ProcessId, answer: Answer)
    requires RejectionsAnswered(w)
    ensures RejectionsAnswered(Step(w, DoSend(p, answer)))
  {
    var after := Step(w, DoSend(p, answer));
    if after != w {
      var b := w.processes[p];
      var key := b.parts[b.next].key;
      var e := after.log[|w.log|];
      forall k, reason | RejectedFor(w.log, k, reason) ensures RejectedFor(after.log, k, reason) {
        AppendedRejections(w.log, e, k, reason);
      }
      forall q, k | AtPart(after, q, k) && after.processes[q].phase.Failing?
                    && after.processes[q].phase.failure.DefinitiveRejection?
        ensures RejectedFor(after.log, k, Some(FailureReason(after.processes[q].phase.failure)))
      {
        if q == p {
          assert k == key && EffectiveAt(after.log, |w.log|, key);
          assert after.log[|w.log|].answer == Answer.Refused(DefinitiveRejection(answer.failure.code));
        } else {
          assert AtPart(w, q, k);
        }
      }
    }
  }

  lemma ReplyKeepsRejections(w: World, p: ProcessId, answer: Answer)
    requires RejectionsAnswered(w)
    ensures RejectionsAnswered(Step(w, DoReply(p, answer)))
  {
    var after := Step(w, DoReply(p, answer));
    if after != w {
      var e := after.log[|w.log|];
      forall k, reason | RejectedFor(w.log, k, reason) ensures RejectedFor(after.log, k, reason) {
        AppendedRejections(w.log, e, k, reason);
      }
      forall q, k | AtPart(after, q, k) ensures AtPart(w, q, k) {
      }
    }
  }

  lemma StepKeepsRejections(w: World, a: Action)
    requires RejectionsAnswered(w)
    ensures RejectionsAnswered(Step(w, a))
  {
    hide RejectionsAnswered;
    hide RejectsOnlyAnswered;
    match a
    case DoSend(p, answer) => SendKeepsRejections(w, p, answer);
    case DoReply(p, answer) => ReplyKeepsRejections(w, p, answer);
    case DoAdvance(p, ctx) =>
      if Step(w, a) != w {
        AdvanceRejectsNothing(w, p, ctx);
        AnsweredStays(w, Step(w, a));
      }
    case DoFail(p) =>
      FailRejectsAnswered(w, p);
      hide Step;
      AnsweredStays(w, Step(w, a));
    case _ =>
      hide Step;
      if IsQuiet(a) {
        QuietStepRejectsNothing(w, a);
      } else if a.DoConfirm? {
        ConfirmRejectsNothing(w, a);
      } else {
        OthersRejectNothing(w, a);
      }
      AnsweredStays(w, Step(w, a));
  }

  // ---------------------------------------------------------------- suppressed rows were never called

  lemma FewerSenders(w: World, after: World)
    requires SuppressedUncalled(w) && after.log == w.log
    requires forall k :: k in after.rows && after.rows[k].status == Suppressed ==>
                 k in w.rows && w.rows[k].status == Suppressed
    requires forall p, k :: SendingAt(after, p, k) ==> SendingAt(w, p, k)
    ensures SuppressedUncalled(after)
  {
  }

  lemma AdvanceKeepsSuppressed(w: World, p: ProcessId, ctx: Context)
    requires LogSound(w) && SendersOwn(w) && SuppressedUncalled(w)
    requires p in w.processes && w.processes[p].Batch? && w.processes[p].phase == Deciding
    ensures SuppressedUncalled(Advance(w, p, ctx))
  {
    hide Advance;
    var after := Advance(w, p, ctx);
    forall k | k in after.rows && after.rows[k].status == Suppressed
      ensures Untouched(after.log, k) && forall q :: !SendingAt(after, q, k)
    {
      AdvanceRow(w, p, ctx, k);
      assert w.rows[k].status in {Prepared, Suppressed};
      forall q ensures !SendingAt(after, q, k) {
        assert !SendingAt(w, q, k);
        if q in after.processes {
          AdvanceProcess(w, p, ctx, q);
        }
      }
    }
  }

  lemma SendKeepsSuppressed(w: World, p: ProcessId, answer: Answer)
    requires SuppressedUncalled(w)
    ensures SuppressedUncalled(Step(w, DoSend(p, answer)))
  {
    var after := Step(w, DoSend(p, answer));
    if after != w {
      var b := w.processes[p];
      var key := b.parts[b.next].key;
      assert SendingAt(w, p, key);
      forall k | k in after.rows && after.rows[k].status == Suppressed
        ensures Untouched(after.log, k) && forall q :: !SendingAt(after, q, k)
      {
        AppendedEffects(w.log, after.log[|w.log|], k);
        assert forall q :: SendingAt(after, q, k) ==> SendingAt(w, q, k);
      }
    }
  }

  lemma ReplyKeepsSuppressed(w: World, p: ProcessId, answer: Answer)
    requires SuppressedUncalled(w)
    ensures SuppressedUncalled(Step(w, DoReply(p, answer)))
  {
    var after := Step(w, DoReply(p, answer));
    if after != w {
      forall k | k in after.rows && after.rows[k].status == Suppressed
        ensures Untouched(after.log, k) && forall q :: !SendingAt(after, q, k)
      {
        AppendedEffects(w.log, after.log[|w.log|], k);
        assert forall q :: SendingAt(after, q, k) ==> SendingAt(w, q, k);
      }
    }
  }

  lemma FailKeepsSuppressed(w: World, p: ProcessId)
    requires SuppressedUncalled(w)
    ensures SuppressedUncalled(Step(w, DoFail(p)))
  {
    if p in w.processes && w.processes[p].Batch? && w.processes[p].phase.Failing?
       && w.processes[p].next < |w.processes[p].parts|
    {
      FailShape(w, p);
      hide Step;
      FewerSenders(w, Step(w, DoFail(p)));
    }
  }

  lemma WritersKeepSuppressed(w: World, a: Action)
    requires SuppressedUncalled(w) && (a.DoPrepare? || a.DoSweep? || a.DoConfirm?)
    ensures SuppressedUncalled(Step(w, a))
  {
    hide SuppressedUncalled;
    FewerSenders(w, Step(w, a));
  }

  lemma QuietStepKeepsSuppressed(w: World, a: Action)
    requires SuppressedUncalled(w) && IsQuiet(a)
    ensures SuppressedUncalled(Step(w, a))
  {
    hide Step;
    var after := Step(w, a);
    QuietStepKeepsTables(w, a);
    forall p, k | SendingAt(after, p, k) ensures SendingAt(w, p, k) {
      QuietStepEngagesNobody(w, a, p);
    }
    FewerSenders(w, after);
  }

  lemma PartsOf(w: World)
    requires ClaimsSafe(w)
    ensures LogSound(w) && SendersOwn(w)
  {
  }

  lemma StepKeepsSuppressed(w: World, a: Action)
    requires ClaimsSafe(w) && SuppressedUncalled(w)
    ensures SuppressedUncalled(Step(w, a))
  {
    hide SuppressedUncalled;
    hide ClaimsSafe;
    match a
    case DoSend(p, answer) => SendKeepsSuppressed(w, p, answer);
    case DoReply(p, answer) => ReplyKeepsSuppressed(w, p, answer);
    case DoAdvance(p, ctx) =>
      if Step(w, a) != w {
        assert LogSound(w) && SendersOwn(w) by { PartsOf(w); }
        AdvanceKeepsSuppressed(w, p, ctx);
      }
    case DoFail(p) => FailKeepsSuppressed(w, p);
    case _ =>
      hide Step;
      if IsQuiet(a) {
        QuietStepKeepsSuppressed(w, a);
      } else {
        WritersKeepSuppressed(w, a);
      }
  }

  // ---------------------------------------------------------------- every run

  ghost predicate OutcomesSafe(w: World) {
    ClaimsSafe(w) && RejectionsAnswered(w) && SuppressedUncalled(w)
  }

  lemma {:induction false} RunKeepsOutcomesSafe(w: World, actions: seq<Action>)
    requires OutcomesSafe(w)
    ensures OutcomesSafe(Run(w, actions))
    decreases |actions|
  {
    hide ClaimsSafe;
    hide RejectionsAnswered;
    hide SuppressedUncalled;
    hide Step;
    if actions != [] {
      StepKeepsClaimsSafe(w, actions[0]);
      StepKeepsRejections(w, actions[0]);
      StepKeepsSuppressed(w, actions[0]);
      RunKeepsOutcomesSafe(Step(w, actions[0]), actions[1..]);
    }
  }

  lemma InitialIsOutcomesSafe(w: World)
    requires Initial(w)
    ensures OutcomesSafe(w)
  {
  }

  lemma EveryReachableOutcomeIsSafe(w: World, actions: seq<Action>)
    requires Initial(w)
    ensures OutcomesSafe(Run(w, actions))
  {
    InitialIsOutcomesSafe(w);
    hide OutcomesSafe;
    hide Run;
    hide Initial;
    RunKeepsOutcomesSafe(w, actions);
  }

  /** What a row may be once Meta has answered its effective call: while the answer is on its way or
      lost it is DISPATCHING or AMBIGUOUS, and else what the answer says. */
  ghost predicate Follows(row: Row, answer: Answer) {
    match answer
    case Accepted(wamid) =>
      row.status in {Dispatching, Ambiguous, Confirmed} && (row.status == Confirmed ==> row.wamid == Some(wamid))
    case Refused(DefinitiveRejection(code)) =>
      && row.status in {Dispatching, Ambiguous, Rejected}
      && (row.status == Rejected ==> row.reason == Some(MetaCode(code)))
    case Refused(_) => row.status in {Dispatching, Ambiguous}
  }

  /** In every interleaving a row follows the answer to its effective call: it is confirmed only if Meta
      accepted it, and rejected only if Meta definitively rejected it. */
  lemma OutcomeFollowsTheAnswer(w: World, actions: seq<Action>, i: nat, k: Key)
    requires Initial(w) && EffectiveAt(Run(w, actions).log, i, k)
    ensures k in Run(w, actions).rows && Follows(Run(w, actions).rows[k], Run(w, actions).log[i].answer)
  {
    hide Run;
    hide OutcomesSafe;
    EveryReachableOutcomeIsSafe(w, actions);
    EndFollowsTheAnswer(Run(w, actions), i, k);
  }

  lemma EndFollowsTheAnswer(w: World, i: nat, k: Key)
    requires OutcomesSafe(w) && EffectiveAt(w.log, i, k)
    ensures k in w.rows && Follows(w.rows[k], w.log[i].answer)
  {
    PartsOf(w);
    hide RollbacksSafe;
    hide SendersOwn;
    hide TokensIssued;
    var row := w.rows[k];
    assert RowShape(row);
    assert row.status !in {Prepared, Suppressed};
    if row.status == Confirmed {
      assert AcceptedFor(w.log, k, row.wamid.value);
      var j: nat :| EffectiveAt(w.log, j, k) && w.log[j].answer == Accepted(row.wamid.value);
      assert i == j;
    } else if row.status == Rejected {
      assert RejectedFor(w.log, k, row.reason);
      var j: nat, code: nat :| EffectiveAt(w.log, j, k)
          && w.log[j].answer == Answer.Refused(DefinitiveRejection(code)) && row.reason == Some(MetaCode(code));
      assert i == j;
    }
  }

  /** And a row without one has not been confirmed or rejected; a suppressed row was never called. */
  lemma UncalledRowsDoNotEnd(w: World, actions: seq<Action>, k: Key)
    requires Initial(w) && k in Run(w, actions).rows
    ensures Untouched(Run(w, actions).log, k) ==> Run(w, actions).rows[k].status !in {Confirmed, Rejected}
    ensures Run(w, actions).rows[k].status == Suppressed ==> Untouched(Run(w, actions).log, k)
  {
    hide Run;
    hide OutcomesSafe;
    EveryReachableOutcomeIsSafe(w, actions);
    UncalledEnd(Run(w, actions), k);
  }

  lemma UncalledEnd(w: World, k: Key)
    requires OutcomesSafe(w) && k in w.rows
    ensures Untouched(w.log, k) ==> w.rows[k].status !in {Confirmed, Rejected}
    ensures w.rows[k].status == Suppressed ==> Untouched(w.log, k)
  {
    assert RowShape(w.rows[k]);
    assert w.rows[k].status == Confirmed ==> AcceptedFor(w.log, k, w.rows[k].wamid.value);
    assert w.rows[k].status == Rejected ==> RejectedFor(w.log, k, w.rows[k].reason);
  }
}
