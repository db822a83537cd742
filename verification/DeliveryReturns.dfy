/** What a batch run returns and why, and that nothing but the stated conditions keeps a part from
    being sent. */
module DeliveryReturns {
  import opened Options
  import opened Conversations
  import opened Deliveries
  import opened DeliveryRuns
  import DeliveryGuarantees

  // ---------------------------------------------------------------- why a run returns

  /** What is returned for a part that stands like this: its reason if it has come to an end, and else
      that somebody is at it. */
  predicate Explains(status: Status, why: Option<Reason>, terminal: bool, reason: Reason) {
    if status in {Confirmed, Rejected, Ambiguous, Suppressed} then
      terminal && reason == (if why.Some? then why.value else StatusName(status))
    else
      status == Dispatching && !terminal && (reason == DeliveryInProgress || why == Some(reason))
  }

  /** The returned reason is that of the part the run has come to, which was not read as confirmed: as it
      was read, or as the refused claim has left it. */
  predicate PartSaysWhy(before: Ledger, after: Ledger, part: Snapshot, terminal: bool, reason: Reason) {
    && part.status != Confirmed
    && (|| Explains(part.status, part.reason, terminal, reason)
        || (part.key in after && Explains(after[part.key].status, after[part.key].reason, terminal, reason))
        || (part.key !in before && terminal && reason == DeliveryMissing))
  }

  predicate FailureSaysWhy(failure: Failure, terminal: bool, reason: Reason) {
    match failure
    case RateLimited(_) => false
    case DefinitiveRejection(code) => terminal && reason == MetaCode(code)
    case AmbiguousOutcome(code) => terminal && reason == MetaCode(code)
    case Unexpected => terminal && reason == UnexpectedFailure
  }

  ghost predicate ReturnsRightly(w: World, after: World, a: Action) {
    && (a.DoAdvance? || a.DoFail?) && a.p in w.processes && w.processes[a.p].Batch?
    && |after.results| == |w.results| + 1
    && var b, r := w.processes[a.p], after.results[|w.results|];
       && after.results == w.results + [r] && after.processes == w.processes - {a.p}
       && r.source == b.source && r.confirmed == b.confirmed && r.actual == |ConfirmedRows(after.rows, b.source)|
       && if b.next >= |b.parts| then r.terminal && r.reason == None
          else
            && r.reason.Some?
            && (a.DoFail? ==> b.phase.Failing? && FailureSaysWhy(b.phase.failure, r.terminal, r.reason.value))
            && (a.DoAdvance? ==> PartSaysWhy(w.rows, after.rows, b.parts[b.next], r.terminal, r.reason.value))
  }

  lemma RefusalExplains(rows: Ledger, db: Db, key: Key, ctx: Context, now: Time, token: Token)
    requires key in rows && (rows[key].token.Some? ==> rows[key].status == Dispatching)
    ensures var (after, result) := Claim(rows, db, key, ctx, now, token);
            result.NotClaimed? ==>
              key in after && Explains(after[key].status, after[key].reason, result.terminal, result.reason)
  {
    hide WhyNot;
  }

  ghost predicate Shaped(rows: Ledger) {
    forall k :: k in rows && rows[k].token.Some? ==> rows[k].status == Dispatching
  }

  lemma AdvanceReturnsRightly(w: World, p: ProcessId, ctx: Context)
    requires p in w.processes && w.processes[p].Batch? && Shaped(w.rows) && Advance(w, p, ctx).results != w.results
    ensures ReturnsRightly(w, Advance(w, p, ctx), DoAdvance(p, ctx))
  {
    hide Claim;
    hide ConfirmedRows;
    hide Explains;
    hide Shaped;
    var b := w.processes[p];
    match TurnOf(b, w.clock)
    case Try(key) =>
      TryExplains(w, b, ctx);
      var (rows, result) := Claim(w.rows, w.db, key, ctx, w.clock, w.nextToken);
      assert PartSaysWhy(w.rows, rows, b.parts[b.next], result.terminal, result.reason);
      assert Advance(w, p, ctx).processes == w.processes - {p};
    case _ => StopExplains(b, w.clock);
  }

  lemma TryExplains(w: World, b: Process, ctx: Context)
    requires b.Batch? && Shaped(w.rows) && TurnOf(b, w.clock).Try?
    ensures b.next < |b.parts| && b.parts[b.next].key == TurnOf(b, w.clock).key
    ensures var (rows, result) := Claim(w.rows, w.db, b.parts[b.next].key, ctx, w.clock, w.nextToken);
            result.NotClaimed? ==> PartSaysWhy(w.rows, rows, b.parts[b.next], result.terminal, result.reason)
  {
    hide Claim;
    hide Explains;
    var key := b.parts[b.next].key;
    if key in w.rows {
      RefusalExplains(w.rows, w.db, key, ctx, w.clock, w.nextToken);
    } else {
      NothingToClaim(w.rows, w.db, key, ctx, w.clock, w.nextToken);
    }
  }

  lemma NothingToClaim(rows: Ledger, db: Db, key: Key, ctx: Context, now: Time, token: Token)
    requires key !in rows
    ensures Claim(rows, db, key, ctx, now, token) == (rows, NotClaimed(true, DeliveryMissing))
  {
  }

  lemma StopExplains(b: Process, now: Time)
    requires b.Batch? && TurnOf(b, now).Stop?
    ensures var stop := TurnOf(b, now);
            if b.next >= |b.parts| then stop == Stop(true, None)
            else
              && stop.reason.Some? && b.parts[b.next].status != Confirmed
              && Explains(b.parts[b.next].status, b.parts[b.next].reason, stop.terminal, stop.reason.value)
  {
  }

  lemma ReturnSaysWhy(w: World, a: Action)
    requires Shaped(w.rows) && Step(w, a).results != w.results
    ensures ReturnsRightly(w, Step(w, a), a)
  {
    hide Advance;
    hide ConfirmedRows;
    hide Fail;
    if a.DoAdvance? {
      AdvanceReturnsRightly(w, a.p, a.ctx);
    }
  }

  /** In every interleaving, whenever a run returns, it says why: there is nothing to say when no part is
      left, and otherwise it says what has become of the part that stopped it. */
  lemma EveryReturnSaysWhy(w: World, actions: seq<Action>, a: Action)
    requires Initial(w) && Step(Run(w, actions), a).results != Run(w, actions).results
    ensures ReturnsRightly(Run(w, actions), Step(Run(w, actions), a), a)
  {
    hide Step;
    hide ReturnsRightly;
    var reached := Run(w, actions);
    forall k | k in reached.rows && reached.rows[k].token.Some? ensures reached.rows[k].status == Dispatching {
      DeliveryGuarantees.TokenAndLeaseMeanDispatching(w, actions, k);
    }
    ReturnSaysWhy(reached, a);
  }

  // ---------------------------------------------------------------- nothing else stops a part

  /** The source has one row, at `key`, and the process that runs its batch has come to it. */
  ghost predicate AtPart(w: World, p: ProcessId, key: Key) {
    && p in w.processes && w.processes[p].Batch? && w.processes[p].source == key.source
    && w.processes[p].next == 0 && |w.processes[p].parts| == 1 && w.processes[p].parts[0].key == key
    && w.processes[p].confirmed == 0
    && w.processes[p].conversation in w.locks && w.locks[w.processes[p].conversation] == p
    && key in w.rows && RowsOf(w.rows, key.source) == {key}
  }

  ghost predicate Startable(w: World, p: ProcessId, key: Key) {
    && p !in w.processes && key.source in w.home && w.home[key.source] !in w.locks
    && key in w.rows && RowsOf(w.rows, key.source) == {key} && w.rows[key].status == Prepared
    && w.rows[key].token == None
  }

  /** A run of the batch takes the lock and reads its one part. */
  lemma Starts(w: World, p: ProcessId, key: Key)
    requires Startable(w, p, key)
    ensures var begun := Step(w, DoBegin(p, key.source));
            var after := Step(begun, DoRead(p, [key]));
            && AtPart(after, p, key) && after.processes[p].phase == Deciding
            && after.processes[p].parts == [Snapshot(key, Prepared, w.rows[key].expiresAt, w.rows[key].reason)]
            && after.processes[p].conversation == w.home[key.source]
            && after.processes == w.processes[p := after.processes[p]]
            && after.locks == w.locks[w.home[key.source] := p]
            && after.rows == w.rows && after.db == w.db && after.clock == w.clock && after.log == w.log
            && after.results == w.results && after.home == w.home && after.outbox == w.outbox
  {
    hide Advance;
    var begun := Step(w, DoBegin(p, key.source));
    OnlyKeyInOrder(begun.rows, key);
    assert CountConfirmed(SnapshotOf(begun.rows, [key])) == 0 by { NothingConfirmed(begun.rows, key); }
    hide InPartOrder;
    hide CountConfirmed;
  }

  lemma OnlyKeyInOrder(rows: Ledger, key: Key)
    requires key in rows && RowsOf(rows, key.source) == {key}
    ensures InPartOrder(rows, key.source, [key])
  {
    forall k ensures k in [key] <==> k in rows && k.source == key.source {
      assert k in RowsOf(rows, key.source) <==> k in {key};
    }
  }

  lemma NothingConfirmed(rows: Ledger, key: Key)
    requires key in rows && rows[key].status != Confirmed
    ensures CountConfirmed(SnapshotOf(rows, [key])) == 0
  {
    var parts := SnapshotOf(rows, [key]);
    assert parts[..|parts| - 1] == [];
  }

  ghost predicate SendingPart(w: World, p: ProcessId, key: Key) {
    AtPart(w, p, key) && w.processes[p].phase.Sending? && OwnsClaim(w.rows, key, w.processes[p].phase.token)
  }

  /** It claims the part if the part may be sent. */
  lemma ClaimsPart(w: World, p: ProcessId, key: Key, ctx: Context)
    requires AtPart(w, p, key) && w.processes[p].phase == Deciding && w.processes[p].parts[0].status == Prepared
    requires w.rows[key].status == Prepared && w.rows[key].token == None && MayBeSent(w.rows[key], w.db, ctx, w.clock)
    ensures var after := Step(w, DoAdvance(p, ctx));
            && SendingPart(after, p, key)
            && after.processes == w.processes[p := w.processes[p].(phase := Sending(w.nextToken))]
            && after.rows[key].attempts == w.rows[key].attempts + 1 && after.locks == w.locks && after.home == w.home
            && after.log == w.log && after.results == w.results && after.outbox == w.outbox
  {
    ClaimedIffItMayBeSent(w.rows, w.db, key, ctx, w.clock, w.nextToken);
    ClaimsThatRow(w.rows, w.db, key, ctx, w.clock, w.nextToken);
    hide Claim;
    hide MayBeSent;
    assert TurnOf(w.processes[p], w.clock) == Try(key);
    var rows := Claim(w.rows, w.db, key, ctx, w.clock, w.nextToken).0;
    assert RowsOf(rows, key.source) == RowsOf(w.rows, key.source);
  }

  lemma ClaimsThatRow(rows: Ledger, db: Db, key: Key, ctx: Context, now: Time, token: Token)
    requires Claim(rows, db, key, ctx, now, token).1.Claimed?
    ensures var after := Claim(rows, db, key, ctx, now, token).0;
            OwnsClaim(after, key, token) && after[key].attempts == rows[key].attempts + 1
  {
    hide WhyNot;
  }

  lemma CallsForPart(w: World, p: ProcessId, key: Key, answer: Answer)
    requires SendingPart(w, p, key)
    ensures var b, after := w.processes[p], Step(w, DoSend(p, answer));
            && AtPart(after, p, key) && after.rows == w.rows && after.outbox == w.outbox && after.results == w.results
            && after.log == w.log + [Send(b.run, b.conversation, Bot(key, w.rows[key].allowHandedOff), answer, w.db)]
            && after.processes == w.processes[p := after.processes[p]] && after.locks == w.locks && after.home == w.home
            && after.processes[p].phase == (match answer
                                            case Accepted(wamid) => Confirming(b.phase.token, wamid)
                                            case Refused(failure) => Failing(b.phase.token, failure))
            && after.processes[p] == b.(phase := after.processes[p].phase)
  {
    hide RowsOf;
  }

  /** A 429 leaves the part prepared again, with one more attempt, and the lock free: the batch can be
      run again. */
  lemma RateLimitGivesBack(w: World, p: ProcessId, key: Key, code: nat)
    requires AtPart(w, p, key) && w.processes[p].phase.Failing? && w.processes[p].phase.failure == RateLimited(code)
    requires OwnsClaim(w.rows, key, w.processes[p].phase.token)
    requires key.source in w.home && w.processes[p].conversation == w.home[key.source]
    ensures var after := Step(w, DoFail(p));
            Startable(after, p, key) && after.rows[key].attempts == w.rows[key].attempts && after.results == w.results
  {
    var after := Step(w, DoFail(p));
    assert RowsOf(after.rows, key.source) == RowsOf(w.rows, key.source);
  }

  /** An accepted and stored answer confirms the part. */
  lemma ConfirmsPart(w: World, p: ProcessId, key: Key)
    requires AtPart(w, p, key) && w.processes[p].phase.Confirming? && OwnsClaim(w.rows, key, w.processes[p].phase.token)
    ensures var b, after := w.processes[p], Step(w, DoConfirm(p, true));
            && key in after.rows && after.rows[key].status == Confirmed
            && after.outbox == w.outbox + [Outbound(key, w.rows[key].conversation, b.phase.wamid)]
            && after.rows == w.rows[key := after.rows[key]]
            && after.processes == w.processes[p := b.(next := 1, confirmed := 1, phase := Deciding)]
            && after.locks == w.locks && after.results == w.results && after.log == w.log
  {
    hide RowsOf;
  }

  /** Past its only part a run returns one confirmation, and its lock is free. */
  lemma ReturnsOne(w: World, p: ProcessId, key: Key, ctx: Context)
    requires p in w.processes && w.processes[p].Batch? && w.processes[p].source == key.source
    requires w.processes[p].next == 1 == |w.processes[p].parts| && w.processes[p].confirmed == 1
    requires w.processes[p].phase == Deciding && w.processes[p].conversation in w.locks
    requires w.locks[w.processes[p].conversation] == p
    requires key in w.rows && w.rows[key].status == Confirmed && RowsOf(w.rows, key.source) == {key}
    ensures var after := Step(w, DoAdvance(p, ctx));
            && after.results == w.results + [Returned(key.source, 1, true, None, 1)]
            && w.processes[p].conversation !in after.locks && p !in after.processes
            && after.rows == w.rows && after.outbox == w.outbox && after.log == w.log
  {
    assert ConfirmedRows(w.rows, key.source) == RowsOf(w.rows, key.source);
    hide RowsOf;
    hide ConfirmedRows;
    assert TurnOf(w.processes[p], w.clock) == Stop(true, None);
  }

  lemma RunOfFive(w: World, a: Action, b: Action, c: Action, d: Action, e: Action)
    ensures Run(w, [a, b, c, d, e]) == Step(Step(Step(Step(Step(w, a), b), c), d), e)
  {
    hide Step;
    assert [a, b, c, d, e][1..] == [b, c, d, e] && [b, c, d, e][1..] == [c, d, e] && [c, d, e][1..] == [d, e];
    assert [d, e][1..] == [e] && [e][1..] == [];
    var next := Step(Step(w, a), b);
    assert Run(w, [a, b, c, d, e]) == Run(Step(w, a), [b, c, d, e]) == Run(next, [c, d, e]);
    assert Run(next, [c, d, e]) == Run(Step(next, c), [d, e]) == Run(Step(Step(next, c), d), [e]);
    assert Run(Step(Step(next, c), d), [e]) == Run(Step(Step(Step(next, c), d), e), []);
  }

  lemma RunOfSix(w: World, a: Action, b: Action, c: Action, d: Action, e: Action, f: Action)
    ensures Run(w, [a, b, c, d, e, f]) == Step(Step(Step(Step(Step(Step(w, a), b), c), d), e), f)
  {
    hide Step;
    assert [a, b, c, d, e, f][1..] == [b, c, d, e, f];
    RunOfFive(Step(w, a), b, c, d, e, f);
  }

  /** The world in which the run `p` has claimed its part. */
  ghost function AfterClaim(w: World, p: ProcessId, key: Key, ctx: Context): World {
    Step(Step(Step(w, DoBegin(p, key.source)), DoRead(p, [key])), DoAdvance(p, ctx))
  }

  lemma GetsTheClaim(w: World, p: ProcessId, key: Key, ctx: Context)
    requires Startable(w, p, key) && MayBeSent(w.rows[key], w.db, ctx, w.clock)
    ensures var claimed := AfterClaim(w, p, key, ctx);
            && SendingPart(claimed, p, key) && claimed.rows[key].attempts == w.rows[key].attempts + 1
            && key.source in claimed.home && claimed.processes[p].conversation == claimed.home[key.source]
            && claimed.log == w.log && claimed.results == w.results && claimed.outbox == w.outbox
  {
    hide Step;
    Starts(w, p, key);
    ClaimsPart(Step(Step(w, DoBegin(p, key.source)), DoRead(p, [key])), p, key, ctx);
  }

  /** A prepared part that may be sent gets through: with nobody else in between, a run of its batch that
      Meta accepts calls once, confirms it with one message, and returns that. */
  lemma PartGetsThrough(w: World, p: ProcessId, key: Key, ctx: Context, wamid: Wamid)
    requires Startable(w, p, key) && MayBeSent(w.rows[key], w.db, ctx, w.clock)
    ensures var end := Run(w, [DoBegin(p, key.source), DoRead(p, [key]), DoAdvance(p, ctx),
                               DoSend(p, Accepted(wamid)), DoConfirm(p, true), DoAdvance(p, ctx)]);
            && key in end.rows && end.rows[key].status == Confirmed && |end.outbox| == |w.outbox| + 1
            && |end.log| == |w.log| + 1 && p !in end.processes
            && end.results == w.results + [Returned(key.source, 1, true, None, 1)]
  {
    var claimed := AfterClaim(w, p, key, ctx);
    var called := Step(claimed, DoSend(p, Accepted(wamid)));
    var confirmed := Step(called, DoConfirm(p, true));
    GetsTheClaim(w, p, key, ctx);
    RunOfSix(w, DoBegin(p, key.source), DoRead(p, [key]), DoAdvance(p, ctx), DoSend(p, Accepted(wamid)),
             DoConfirm(p, true), DoAdvance(p, ctx));
    hide Step;
    hide Run;
    hide OwnsClaim;
    CallsForPart(claimed, p, key, Accepted(wamid));
    ConfirmsPart(called, p, key);
    assert RowsOf(confirmed.rows, key.source) == RowsOf(called.rows, key.source);
    ReturnsOne(confirmed, p, key, ctx);
  }

  /** A 429 loses nothing: the part is prepared again with one attempt more and one call in the log, and
      its batch can be run again at once. */
  lemma RateLimitedPartMayBeRunAgain(w: World, p: ProcessId, key: Key, ctx: Context, code: nat)
    requires Startable(w, p, key) && MayBeSent(w.rows[key], w.db, ctx, w.clock)
    ensures var end := Run(w, [DoBegin(p, key.source), DoRead(p, [key]), DoAdvance(p, ctx),
                               DoSend(p, Answer.Refused(RateLimited(code))), DoFail(p)]);
            && Startable(end, p, key) && end.rows[key].attempts == w.rows[key].attempts + 1
            && end.results == w.results
  {
    var claimed := AfterClaim(w, p, key, ctx);
    var refused := Answer.Refused(RateLimited(code));
    GetsTheClaim(w, p, key, ctx);
    RunOfFive(w, DoBegin(p, key.source), DoRead(p, [key]), DoAdvance(p, ctx), DoSend(p, refused), DoFail(p));
    hide Step;
    hide Run;
    hide OwnsClaim;
    CallsForPart(claimed, p, key, refused);
    RateLimitGivesBack(Step(claimed, DoSend(p, refused)), p, key, code);
  }

  // ---------------------------------------------------------------- the other steps

  /** A source's first part can be started as soon as it is prepared. */
  lemma PreparingMakesStartable(w: World, p: ProcessId, key: Key, allowHandedOff: bool, turn: Option<TurnId>)
    requires p !in w.processes && key.source in w.home && w.home[key.source] !in w.locks
             && RowsOf(w.rows, key.source) == {}
    ensures var after := Step(w, DoPrepare(key, allowHandedOff, turn));
            && Startable(after, p, key)
            && after.rows[key]
               == Row(w.home[key.source], allowHandedOff, turn, Prepared, 0, None, None, None, None, None)
  {
    assert key !in RowsOf(w.rows, key.source);
    var after := Step(w, DoPrepare(key, allowHandedOff, turn));
    assert RowsOf(after.rows, key.source) == RowsOf(w.rows, key.source) + {key};
  }

  /** Time passes, sweeps take expired claims away, and an operation is carried out unless somebody holds
      the lock of its conversation. */
  lemma TheWorldMovesOn(w: World, k: Key, clock: Time, op: Op)
    ensures k in w.rows && IsExpired(w.rows[k], w.clock) ==>
              k in Step(w, DoSweep).rows && Step(w, DoSweep).rows[k].status == Ambiguous
    ensures clock >= w.clock ==> Step(w, DoTick(clock)) == w.(clock := clock)
    ensures var lock := LockOf(w.db, op);
            Step(w, DoOperate(op)).db == if lock.Some? && lock.value in w.locks then w.db else Apply(w.db, op)
  {
    hide Apply;
    hide LockOf;
  }

  /** A crash ends the run and frees its lock; a transaction timeout frees the lock only, so that another
      run may start beside the one that goes on. No row changes. */
  lemma CrashesAndTimeouts(w: World, p: ProcessId, q: ProcessId, source: MessageId)
    requires p in w.processes && w.processes[p].conversation in w.locks && w.locks[w.processes[p].conversation] == p
    ensures var crashed := Step(w, DoCrash(p));
            p !in crashed.processes && w.processes[p].conversation !in crashed.locks && crashed.rows == w.rows
    ensures var timedOut := Step(w, DoTimeout(p));
            && timedOut.processes == w.processes && w.processes[p].conversation !in timedOut.locks
            && timedOut.rows == w.rows && timedOut.timedOut
            && (q !in w.processes && source in w.home && w.home[source] == w.processes[p].conversation
                && RowsOf(w.rows, source) != {} ==>
                  var both := Step(timedOut, DoBegin(q, source)).processes;
                  p in both && both[p] == w.processes[p] && q in both)
  {
  }

  /** An operator who is authorised calls once, holding the lock from the authorisation to the end. */
  lemma ReplyGetsThrough(w: World, p: ProcessId, c: ConversationId, user: UserId, windowOpen: bool, answer: Answer)
    requires p !in w.processes && c !in w.locks && AuthorizeReply(w.db, c, user, windowOpen).Done?
    ensures var authorized := Step(w, DoAuthorize(p, c, user, windowOpen));
            var replied := Step(authorized, DoReply(p, answer));
            var end := Step(replied, DoFinishReply(p));
            && c in authorized.locks && authorized.locks[c] == p && replied.locks == authorized.locks
            && end.log == w.log + [Send(w.nextRun, c, Human(user), answer, w.db)]
            && p !in end.processes && c !in end.locks
  {
    hide AuthorizeReply;
  }
}
