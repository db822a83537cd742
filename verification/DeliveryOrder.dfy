/** What the conversation lock buys, as long as no transaction times out.

    Calls of one conversation never interleave, and the eligibility that a claim has checked still holds
    at the call.

    Each lemma says what one step does: to the locks and runs, to one row, to the parts of one run. The
    statements about whole runs are in `DeliveryProgress`. */
module DeliveryOrder {
  import opened Options
  import opened Conversations
  import opened Deliveries
  import opened DeliveryRuns
  import opened DeliverySafety

  // ---------------------------------------------------------------- the shape of a step

  ghost function Actor(a: Action): Option<ProcessId> {
    match a
    case DoPrepare(_, _, _) => None
    case DoSweep => None
    case DoTick(_) => None
    case DoOperate(_) => None
    case DoBegin(p, _) => Some(p)
    case DoRead(p, _) => Some(p)
    case DoAdvance(p, _) => Some(p)
    case DoSend(p, _) => Some(p)
    case DoConfirm(p, _) => Some(p)
    case DoFail(p) => Some(p)
    case DoAuthorize(p, _, _, _) => Some(p)
    case DoReply(p, _) => Some(p)
    case DoFinishReply(p) => Some(p)
    case DoCrash(p) => Some(p)
    case DoTimeout(p) => Some(p)
  }

  ghost predicate Stays(w: World, after: World) {
    after.processes == w.processes && after.locks == w.locks && after.nextRun == w.nextRun && after.log == w.log
  }

  /** A process takes a free lock and starts a run. */
  ghost predicate Enters(w: World, after: World, p: ProcessId) {
    && p !in w.processes && p in after.processes
    && after.processes == w.processes[p := after.processes[p]]
    && after.processes[p].conversation !in w.locks
    && after.locks == w.locks[after.processes[p].conversation := p]
    && after.processes[p].run == w.nextRun && after.nextRun == w.nextRun + 1
    && after.log == w.log
  }

  ghost predicate SameRun(a: Process, b: Process) {
    && a.run == b.run && a.conversation == b.conversation
    && (a.Batch? <==> b.Batch?) && (a.Batch? ==> a.source == b.source) && (a.Reply? ==> a.user == b.user)
  }

  /** A process takes a step of its run, perhaps calling Meta. */
  ghost predicate Moves(w: World, after: World, p: ProcessId) {
    && p in w.processes && p in after.processes
    && after.processes == w.processes[p := after.processes[p]]
    && SameRun(w.processes[p], after.processes[p])
    && after.locks == w.locks && after.nextRun == w.nextRun
    && (after.log == w.log
        || (&& |after.log| == |w.log| + 1 && after.log[..|w.log|] == w.log
            && after.log[|w.log|].run == w.processes[p].run
            && after.log[|w.log|].conversation == w.processes[p].conversation))
  }

  ghost predicate Exits(w: World, after: World, p: ProcessId) {
    && p in w.processes
    && after.processes == w.processes - {p}
    && after.locks == Leave(w, p).locks && after.nextRun == w.nextRun && after.log == w.log
  }

  lemma ReturnExits(w: World, p: ProcessId, terminal: bool, reason: Option<Reason>)
    requires p in w.processes && w.processes[p].Batch?
    ensures Exits(w, Return(w, p, terminal, reason), p) && Return(w, p, terminal, reason).timedOut == w.timedOut
  {
  }

  lemma AdvanceShape(w: World, p: ProcessId, ctx: Context)
    requires p in w.processes && w.processes[p].Batch?
    ensures Moves(w, Advance(w, p, ctx), p) || Exits(w, Advance(w, p, ctx), p)
    ensures Advance(w, p, ctx).timedOut == w.timedOut
  {
    hide Claim;
    hide TurnOf;
    hide Return;
    match TurnOf(w.processes[p], w.clock)
    case Skip =>
    case Stop(terminal, reason) => ReturnExits(w, p, terminal, reason);
    case Try(key) =>
      var (rows, result) := Claim(w.rows, w.db, key, ctx, w.clock, w.nextToken);
      if result.NotClaimed? {
        ReturnExits(w.(rows := rows, nextToken := w.nextToken + 1), p, result.terminal, Some(result.reason));
      }
  }

  lemma FailShape(w: World, p: ProcessId)
    ensures var after := Step(w, DoFail(p));
            after == w || (Exits(w, after, p) && after.timedOut == w.timedOut)
  {
    hide Return;
    hide Fail;
    if Step(w, DoFail(p)) != w {
      var b := w.processes[p];
      var failed := w.(rows := Fail(w.rows, b.parts[b.next].key, b.phase.token, b.phase.failure));
      if !b.phase.failure.RateLimited? {
        ReturnExits(failed, p, true, Some(FailureReason(b.phase.failure)));
      }
    }
  }

  ghost predicate Shaped(w: World, a: Action, after: World) {
    || (a.DoTimeout? && after.processes == w.processes && (after == w || after.timedOut))
    || Stays(w, after)
    || (Actor(a).Some? && (Enters(w, after, Actor(a).value) || Moves(w, after, Actor(a).value)
                           || Exits(w, after, Actor(a).value)))
  }

  lemma EnterShape(w: World, a: Action)
    requires a.DoBegin? || a.DoAuthorize?
    ensures Shaped(w, a, Step(w, a)) && (w.timedOut ==> Step(w, a).timedOut)
  {
    hide AuthorizeReply;
    hide Moves;
    hide Exits;
  }

  lemma LeaveShape(w: World, a: Action)
    requires a.DoFinishReply? || a.DoCrash? || a.DoTimeout?
    ensures Shaped(w, a, Step(w, a)) && (w.timedOut ==> Step(w, a).timedOut)
  {
    hide Moves;
    hide Enters;
  }

  lemma MoveShape(w: World, a: Action)
    requires a.DoRead? || a.DoSend? || a.DoConfirm? || a.DoReply?
    ensures Shaped(w, a, Step(w, a)) && (w.timedOut ==> Step(w, a).timedOut)
  {
    hide Exits;
    hide Enters;
    hide Confirm;
    hide InPartOrder;
  }

  lemma StepShape(w: World, a: Action)
    ensures Shaped(w, a, Step(w, a)) && (w.timedOut ==> Step(w, a).timedOut)
  {
    hide Advance;
    hide Enters;
    hide Moves;
    hide Exits;
    match a
    case DoPrepare(_, _, _) =>
    case DoSweep =>
    case DoTick(_) =>
    case DoOperate(_) =>
    case DoAdvance(p, ctx) =>
      if Step(w, a) != w {
        AdvanceShape(w, p, ctx);
      }
    case DoFail(p) => FailShape(w, p);
    case DoBegin(_, _) => EnterShape(w, a);
    case DoAuthorize(_, _, _, _) => EnterShape(w, a);
    case DoFinishReply(_) => LeaveShape(w, a);
    case DoCrash(_) => LeaveShape(w, a);
    case DoTimeout(_) => LeaveShape(w, a);
    case _ => MoveShape(w, a);
  }

  // ---------------------------------------------------------------- calls are serialised

  ghost predicate LocksMatch(w: World) {
    && (forall p :: p in w.processes ==>
          w.processes[p].conversation in w.locks && w.locks[w.processes[p].conversation] == p)
    && (forall c :: c in w.locks ==> w.locks[c] in w.processes && w.processes[w.locks[c]].conversation == c)
  }

  /** Run numbers are fresh, belong to one process and to one conversation. */
  ghost predicate RunsIssued(w: World) {
    && (forall p :: p in w.processes ==> w.processes[p].run < w.nextRun)
    && (forall p, q :: p in w.processes && q in w.processes && w.processes[p].run == w.processes[q].run ==> p == q)
    && (forall i: nat :: i < |w.log| ==> w.log[i].run < w.nextRun)
    && (forall p, i: nat :: p in w.processes && i < |w.log| && w.log[i].run == w.processes[p].run ==>
          w.log[i].conversation == w.processes[p].conversation)
  }

  ghost predicate OneConversationPerRun(log: seq<Send>) {
    forall i: nat, j: nat :: i < j < |log| && log[i].run == log[j].run ==> log[i].conversation == log[j].conversation
  }

  /** Once a running process has called Meta, nobody else has called for its conversation. */
  ghost predicate Exclusive(w: World) {
    forall p, i: nat, j: nat ::
      p in w.processes && i < j < |w.log|
      && w.log[i].run == w.processes[p].run && w.log[j].conversation == w.processes[p].conversation
      ==> w.log[j].run == w.processes[p].run
  }

  /** Between two calls of one run, no other run calls for that conversation. */
  ghost predicate Serialized(log: seq<Send>) {
    forall i: nat, j: nat, k: nat ::
      i < j < k < |log| && log[i].run == log[k].run
      && log[i].conversation == log[j].conversation && log[j].conversation == log[k].conversation
      ==> log[j].run == log[i].run
  }

  ghost predicate Serial(w: World) {
    LocksMatch(w) && RunsIssued(w) && Exclusive(w) && Serialized(w.log) && OneConversationPerRun(w.log)
  }

  lemma EnteringKeepsRuns(w: World, after: World, p: ProcessId)
    requires LocksMatch(w) && RunsIssued(w) && Enters(w, after, p)
    ensures LocksMatch(after) && RunsIssued(after)
  {
  }

  lemma EnteringKeepsSerial(w: World, after: World, p: ProcessId)
    requires Serial(w) && Enters(w, after, p)
    ensures Serial(after)
  {
    hide Serialized;
    hide OneConversationPerRun;
    EnteringKeepsRuns(w, after, p);
    hide LocksMatch;
  }

  lemma ExitingKeepsSerial(w: World, after: World, p: ProcessId)
    requires Serial(w) && Exits(w, after, p)
    ensures Serial(after)
  {
    hide Serialized;
    hide OneConversationPerRun;
  }

  ghost predicate CallsFor(w: World, after: World, p: ProcessId) {
    && p in w.processes && |after.log| == |w.log| + 1
    && (forall i: nat :: i < |w.log| ==> after.log[i] == w.log[i])
    && after.log[|w.log|].run == w.processes[p].run
    && after.log[|w.log|].conversation == w.processes[p].conversation
  }

  lemma CallKeepsExclusive(w: World, after: World, p: ProcessId)
    requires Serial(w) && CallsFor(w, after, p) && after.processes.Keys == w.processes.Keys
    requires forall q :: q in w.processes ==> SameRun(w.processes[q], after.processes[q])
    ensures Exclusive(after)
  {
    forall q, i: nat, j: nat |
      q in after.processes && i < j < |after.log|
      && after.log[i].run == after.processes[q].run && after.log[j].conversation == after.processes[q].conversation
      ensures after.log[j].run == after.processes[q].run
    {
      assert after.log[i] == w.log[i];
      if j == |w.log| {
        assert w.locks[w.processes[q].conversation] == q && w.locks[w.processes[p].conversation] == p;
      } else {
        assert after.log[j] == w.log[j];
      }
    }
  }

  lemma CallKeepsSerialized(w: World, after: World, p: ProcessId)
    requires Serial(w) && CallsFor(w, after, p)
    ensures Serialized(after.log)
  {
    forall i: nat, j: nat, k: nat |
      i < j < k < |after.log| && after.log[i].run == after.log[k].run
      && after.log[i].conversation == after.log[j].conversation
         && after.log[j].conversation == after.log[k].conversation
      ensures after.log[j].run == after.log[i].run
    {
      assert after.log[i] == w.log[i] && after.log[j] == w.log[j];
      if k < |w.log| {
        assert after.log[k] == w.log[k];
      }
    }
  }

  lemma CallKeepsOneConversation(w: World, after: World, p: ProcessId)
    requires RunsIssued(w) && OneConversationPerRun(w.log) && CallsFor(w, after, p)
    ensures OneConversationPerRun(after.log)
  {
    forall i: nat, j: nat | i < j < |after.log| && after.log[i].run == after.log[j].run
      ensures after.log[i].conversation == after.log[j].conversation
    {
      assert after.log[i] == w.log[i];
      if j < |w.log| {
        assert after.log[j] == w.log[j];
      }
    }
  }

  lemma MovingKeepsSerial(w: World, after: World, p: ProcessId)
    requires Serial(w) && Moves(w, after, p)
    ensures Serial(after)
  {
    hide Serialized;
    hide OneConversationPerRun;
    if after.log == w.log {
      MovingKeepsRuns(w, after, p);
    } else {
      hide Exclusive;
      assert CallsFor(w, after, p) by {
        forall i: nat | i < |w.log| ensures after.log[i] == w.log[i] {
          assert after.log[i] == after.log[..|w.log|][i];
        }
      }
      MovingKeepsRuns(w, after, p);
      CallKeepsExclusive(w, after, p);
      CallKeepsSerialized(w, after, p);
      CallKeepsOneConversation(w, after, p);
    }
  }

  lemma MovingKeepsRuns(w: World, after: World, p: ProcessId)
    requires LocksMatch(w) && RunsIssued(w) && Moves(w, after, p)
    requires after.log == w.log || CallsFor(w, after, p)
    ensures LocksMatch(after) && RunsIssued(after)
  {
    forall q, i: nat | q in after.processes && i < |after.log| && after.log[i].run == after.processes[q].run
      ensures after.log[i].conversation == after.processes[q].conversation
    {
      assert w.processes[q].run == after.processes[q].run;
      if i < |w.log| {
        assert after.log[i] == w.log[i];
      }
    }
    forall i: nat | i < |after.log| ensures after.log[i].run < after.nextRun {
      if i < |w.log| {
        assert after.log[i] == w.log[i];
      }
    }
  }

  lemma StepKeepsSerial(w: World, a: Action)
    requires Serial(w) && !Step(w, a).timedOut
    ensures Serial(Step(w, a))
  {
    hide Step;
    var after := Step(w, a);
    StepShape(w, a);
    if after != w && !Stays(w, after) {
      var p := Actor(a).value;
      if Enters(w, after, p) {
        EnteringKeepsSerial(w, after, p);
      } else if Moves(w, after, p) {
        MovingKeepsSerial(w, after, p);
      } else {
        ExitingKeepsSerial(w, after, p);
      }
    }
  }

  // ---------------------------------------------------------------- calls are still allowed when made

  /** The conversation may be written to automatically: it is active and no human holds it or, for
      a part that may follow a handoff, it is at least not closed. */
  ghost predicate CallAllowed(db: Db, c: ConversationId, allowHandedOff: bool) {
    && c < |db.conversations|
    && (db.conversations[c].status == Active || (allowHandedOff && db.conversations[c].status == HandedOff))
    && (!allowHandedOff ==> OpenHandoffOf(db, c).None?)
  }

  ghost predicate EntryAllowed(e: Send) {
    match e.author
    case Bot(_, allowHandedOff) => CallAllowed(e.db, e.conversation, allowHandedOff)
    case Human(user) => AuthorizeReply(e.db, e.conversation, user, true).Done?
  }

  ghost predicate Guarded(w: World) {
    && (forall p, k :: SendingAt(w, p, k) && k in w.rows ==>
          CallAllowed(w.db, w.processes[p].conversation, w.rows[k].allowHandedOff))
    && (forall p :: p in w.processes && w.processes[p].Reply? ==>
          AuthorizeReply(w.db, w.processes[p].conversation, w.processes[p].user, true).Done?)
    && (forall i: nat :: i < |w.log| ==> EntryAllowed(w.log[i]))
  }

  /** An operation that does not hold the lock of `c` leaves its standing alone. */
  lemma OthersKeepStanding(db: Db, op: Op, c: ConversationId, allowHandedOff: bool, user: UserId)
    requires LockOf(db, op) != Some(c)
    ensures CallAllowed(db, c, allowHandedOff) ==> CallAllowed(Apply(db, op), c, allowHandedOff)
    ensures AuthorizeReply(db, c, user, true).Done? ==> AuthorizeReply(Apply(db, op), c, user, true).Done?
  {
    var after := Apply(db, op);
    assert forall h: nat :: OpenAt(after, c, h) ==> OpenAt(db, c, h);
    if AuthorizeReply(db, c, user, true).Done? {
      var h :| 0 <= h < |db.handoffs| && db.handoffs[h].conversation == c
               && db.handoffs[h].status == InProgress && db.handoffs[h].agent == Some(user);
      assert after.handoffs[h] == db.handoffs[h];
    }
  }

  // ---------------------------------------------------------------- rows and parts

  /** Rows stay, keep their conversation and handoff permission, and confirmed rows stay confirmed. */
  ghost predicate RowKept(rows: Ledger, after: Ledger, k: Key)
    requires k in rows
  {
    && k in after && after[k].conversation == rows[k].conversation
    && after[k].allowHandedOff == rows[k].allowHandedOff
    && (rows[k].status == Confirmed ==> after[k].status == Confirmed)
  }

  ghost predicate RowsPersist(rows: Ledger, after: Ledger) {
    forall k :: k in rows ==> RowKept(rows, after, k)
  }

  /** What a step may do to one row: never lose or move it; only a prepare adds it, in its source's
      conversation, and only a confirmation confirms it. */
  ghost predicate RowStep(w: World, a: Action, after: World, k: Key) {
    && (k in w.rows ==> RowKept(w.rows, after.rows, k))
    && (k in after.rows && k !in w.rows ==>
          && a.DoPrepare? && k == a.key && k.source in w.home && after.rows[k].conversation == w.home[k.source]
          && after.rows[k].status == Prepared)
    && (k in after.rows && after.rows[k].status == Confirmed ==>
          k in w.rows && (w.rows[k].status == Confirmed || a.DoConfirm?))
  }

  lemma ClaimRow(rows: Ledger, db: Db, key: Key, ctx: Context, now: Time, token: Token, k: Key)
    ensures var after := Claim(rows, db, key, ctx, now, token).0;
            && (k in after <==> k in rows)
            && (k in rows ==>
                  && after[k].conversation == rows[k].conversation && after[k].allowHandedOff == rows[k].allowHandedOff
                  && (after[k].status == Confirmed <==> rows[k].status == Confirmed))
  {
    hide WhyNot;
  }

  lemma AdvanceRow(w: World, p: ProcessId, ctx: Context, k: Key)
    requires p in w.processes && w.processes[p].Batch?
    ensures RowStep(w, DoAdvance(p, ctx), Advance(w, p, ctx), k)
    ensures Advance(w, p, ctx).home == w.home && Advance(w, p, ctx).db == w.db
  {
    hide Claim;
    hide TurnOf;
    hide ConfirmedRows;
    match TurnOf(w.processes[p], w.clock)
    case Try(key) => ClaimRow(w.rows, w.db, key, ctx, w.clock, w.nextToken, k);
    case _ =>
  }

  lemma ConfirmStepRow(w: World, p: ProcessId, stored: bool, k: Key)
    ensures RowStep(w, DoConfirm(p, stored), Step(w, DoConfirm(p, stored)), k)
    ensures Step(w, DoConfirm(p, stored)).home == w.home && Step(w, DoConfirm(p, stored)).db == w.db
  {
  }

  lemma FailStepRow(w: World, p: ProcessId, k: Key)
    ensures RowStep(w, DoFail(p), Step(w, DoFail(p)), k)
    ensures Step(w, DoFail(p)).home == w.home && Step(w, DoFail(p)).db == w.db
  {
    hide ConfirmedRows;
  }

  lemma LoudStepRow(w: World, a: Action, k: Key)
    requires !IsQuiet(a)
    ensures RowStep(w, a, Step(w, a), k)
    ensures Step(w, a).home == w.home && Step(w, a).db == w.db
  {
    hide Advance;
    hide RowStep;
    match a
    case DoAdvance(p, ctx) =>
      assert RowStep(w, a, w, k) by { UnchangedRow(w, a, w, k); }
      if p in w.processes && w.processes[p].Batch? {
        AdvanceRow(w, p, ctx, k);
      }
    case DoConfirm(p, stored) => ConfirmStepRow(w, p, stored, k);
    case DoFail(p) => FailStepRow(w, p, k);
    case DoSend(_, _) => UnchangedRow(w, a, Step(w, a), k);
    case DoReply(_, _) => UnchangedRow(w, a, Step(w, a), k);
    case DoPrepare(key, _, _) => PrepareStepRow(w, a, k);
    case DoSweep => PrepareStepRow(w, a, k);
  }

  lemma UnchangedRow(w: World, a: Action, after: World, k: Key)
    requires after.rows == w.rows
    ensures RowStep(w, a, after, k)
  {
  }

  lemma PrepareStepRow(w: World, a: Action, k: Key)
    requires a.DoPrepare? || a.DoSweep?
    ensures RowStep(w, a, Step(w, a), k)
    ensures Step(w, a).home == w.home && Step(w, a).db == w.db
  {
  }

  lemma StepRow(w: World, a: Action, k: Key)
    ensures RowStep(w, a, Step(w, a), k)
    ensures Step(w, a).home == w.home && (!a.DoOperate? ==> Step(w, a).db == w.db)
  {
    hide Step;
    if IsQuiet(a) {
      QuietStepKeepsTables(w, a);
    } else {
      LoudStepRow(w, a, k);
    }
  }

  lemma StepRowsPersist(w: World, a: Action)
    ensures var after := Step(w, a);
            && RowsPersist(w.rows, after.rows) && after.home == w.home
            && (!a.DoOperate? ==> after.db == w.db)
            && forall k :: k in after.rows ==> RowStep(w, a, after, k)
  {
    hide Step;
    hide RowKept;
    forall k ensures RowStep(w, a, Step(w, a), k) && (k in w.rows ==> RowKept(w.rows, Step(w, a).rows, k)) {
      StepRow(w, a, k);
    }
    StepRow(w, a, Key(0, HermesReply, 0));
  }

  lemma AdvanceParts(w: World, p: ProcessId, ctx: Context, q: ProcessId)
    requires p in w.processes && w.processes[p].Batch? && q in Advance(w, p, ctx).processes
    ensures q in w.processes && SameRun(w.processes[q], Advance(w, p, ctx).processes[q])
    ensures w.processes[q].Batch? ==> Advance(w, p, ctx).processes[q].parts == w.processes[q].parts
  {
    hide Claim;
    hide TurnOf;
    hide Return;
    match TurnOf(w.processes[p], w.clock)
    case Skip =>
    case Stop(terminal, reason) => ReturnExits(w, p, terminal, reason);
    case Try(key) =>
      var (rows, result) := Claim(w.rows, w.db, key, ctx, w.clock, w.nextToken);
      if result.NotClaimed? {
        ReturnExits(w.(rows := rows, nextToken := w.nextToken + 1), p, result.terminal, Some(result.reason));
      }
  }

  lemma OthersStay(w: World, a: Action, q: ProcessId)
    requires Actor(a) != Some(q)
    ensures q in Step(w, a).processes <==> q in w.processes
    ensures q in w.processes ==> Step(w, a).processes[q] == w.processes[q]
  {
    hide Step;
    StepShape(w, a);
  }

  /** A run's parts are read once, in part order. */
  ghost predicate PartsStep(w: World, a: Action, p: ProcessId, process: Process)
    requires process.Batch?
  {
    || (p in w.processes && SameRun(w.processes[p], process) && process.parts == w.processes[p].parts)
    || (a.DoBegin? && a.p == p && process.parts == [] && process.phase == Reading
        && process.source in w.home && process.conversation == w.home[process.source])
    || (a.DoRead? && a.p == p && p in w.processes && SameRun(w.processes[p], process)
        && InPartOrder(w.rows, process.source, a.keys)
        && process.parts == SnapshotOf(w.rows, a.keys) && process.phase == Deciding
        && process.next == w.processes[p].next)
  }

  lemma ReadingParts(w: World, a: Action, p: ProcessId)
    requires a.DoBegin? || a.DoRead?
    requires Actor(a) == Some(p) && p in Step(w, a).processes && Step(w, a).processes[p].Batch?
    ensures PartsStep(w, a, p, Step(w, a).processes[p])
  {
    hide InPartOrder;
    hide CountConfirmed;
    hide SnapshotOf;
  }

  lemma ActorParts(w: World, a: Action, p: ProcessId)
    requires Actor(a) == Some(p) && p in Step(w, a).processes && Step(w, a).processes[p].Batch?
    ensures PartsStep(w, a, p, Step(w, a).processes[p])
  {
    hide Advance;
    hide ConfirmedRows;
    hide AuthorizeReply;
    match a
    case DoAdvance(_, ctx) =>
      if Step(w, a) != w {
        AdvanceParts(w, p, ctx, p);
      }
    case DoBegin(_, _) => ReadingParts(w, a, p);
    case DoRead(_, _) => ReadingParts(w, a, p);
    case _ =>
      hide InPartOrder;
      hide SnapshotOf;
  }

  lemma StepParts(w: World, a: Action, p: ProcessId)
    requires p in Step(w, a).processes && Step(w, a).processes[p].Batch?
    ensures PartsStep(w, a, p, Step(w, a).processes[p])
  {
    hide Step;
    if Actor(a) == Some(p) {
      ActorParts(w, a, p);
    } else {
      OthersStay(w, a, p);
    }
  }

  ghost predicate RunOwnsParts(rows: Ledger, home: map<MessageId, ConversationId>, b: Process)
    requires b.Batch?
  {
    && b.source in home && b.conversation == home[b.source]
    && forall i :: 0 <= i < |b.parts| ==> b.parts[i].key in rows && b.parts[i].key.source == b.source
  }

  /** Each run works on the rows of its source, which live in the run's conversation. */
  ghost predicate PartsOwned(w: World) {
    && (forall k :: k in w.rows ==> k.source in w.home && w.rows[k].conversation == w.home[k.source])
    && (forall p :: p in w.processes && w.processes[p].Batch? ==> RunOwnsParts(w.rows, w.home, w.processes[p]))
  }

  lemma StepKeepsPartsOwned(w: World, a: Action)
    requires PartsOwned(w)
    ensures PartsOwned(Step(w, a))
  {
    hide Step;
    var after := Step(w, a);
    StepRowsPersist(w, a);
    forall p | p in after.processes && after.processes[p].Batch?
      ensures RunOwnsParts(after.rows, after.home, after.processes[p])
    {
      StepParts(w, a, p);
      if a.DoRead? && a.p == p && after.processes[p].parts != w.processes[p].parts {
        assert forall i :: 0 <= i < |a.keys| ==> a.keys[i] in a.keys;
      }
    }
  }

  lemma OperateKeepsGuarded(w: World, op: Op)
    requires Serial(w) && PartsOwned(w) && Guarded(w)
    ensures Guarded(Step(w, DoOperate(op)))
  {
    hide CallAllowed;
    hide AuthorizeReply;
    hide Apply;
    var after := Step(w, DoOperate(op));
    if after != w {
      forall p, k | SendingAt(after, p, k) && k in after.rows
        ensures CallAllowed(after.db, after.processes[p].conversation, after.rows[k].allowHandedOff)
      {
        assert SendingAt(w, p, k);
        OthersKeepStanding(w.db, op, w.processes[p].conversation, w.rows[k].allowHandedOff, 0);
      }
      forall p | p in after.processes && after.processes[p].Reply?
        ensures AuthorizeReply(after.db, after.processes[p].conversation, after.processes[p].user, true).Done?
      {
        OthersKeepStanding(w.db, op, w.processes[p].conversation, false, w.processes[p].user);
      }
    }
  }

  lemma ClaimChecksStanding(rows: Ledger, db: Db, key: Key, ctx: Context, now: Time, token: Token)
    requires key in rows && Claim(rows, db, key, ctx, now, token).1.Claimed?
    ensures CallAllowed(db, rows[key].conversation, rows[key].allowHandedOff)
  {
  }

  /** A process that is about to send was so before, or has just checked the standing. */
  lemma AdvanceSenders(w: World, p: ProcessId, ctx: Context, q: ProcessId, k: Key)
    requires PartsOwned(w) && p in w.processes && w.processes[p].Batch? && w.processes[p].phase == Deciding
    requires SendingAt(Advance(w, p, ctx), q, k)
    ensures SendingAt(w, q, k)
         || (q == p && k in w.rows && CallAllowed(w.db, w.processes[p].conversation, w.rows[k].allowHandedOff))
  {
    hide CallAllowed;
    hide Claim;
    hide ConfirmedRows;
    assert RunOwnsParts(w.rows, w.home, w.processes[p]);
    match TurnOf(w.processes[p], w.clock)
    case Try(key) =>
      if Claim(w.rows, w.db, key, ctx, w.clock, w.nextToken).1.Claimed? {
        ClaimChecksStanding(w.rows, w.db, key, ctx, w.clock, w.nextToken);
      }
    case _ =>
  }

  lemma ActorSenders(w: World, a: Action, p: ProcessId, k: Key)
    requires PartsOwned(w) && Actor(a) == Some(p) && SendingAt(Step(w, a), p, k)
    ensures SendingAt(w, p, k)
         || (p in w.processes && k in w.rows
            && CallAllowed(w.db, w.processes[p].conversation, w.rows[k].allowHandedOff))
  {
    hide CallAllowed;
    hide Advance;
    hide ConfirmedRows;
    hide InPartOrder;
    hide AuthorizeReply;
    match a
    case DoAdvance(_, ctx) =>
      if Step(w, a) != w {
        AdvanceSenders(w, p, ctx, p, k);
      }
    case _ =>
  }

  lemma StepSenders(w: World, a: Action, p: ProcessId, k: Key)
    requires PartsOwned(w) && SendingAt(Step(w, a), p, k)
    ensures SendingAt(w, p, k)
         || (p in w.processes && k in w.rows
            && CallAllowed(w.db, w.processes[p].conversation, w.rows[k].allowHandedOff))
  {
    hide Step;
    hide CallAllowed;
    if Actor(a) == Some(p) {
      ActorSenders(w, a, p, k);
    } else {
      OthersStay(w, a, p);
    }
  }

  ghost predicate GrowsBy(log: seq<Send>, after: seq<Send>, e: Send) {
    |after| == |log| + 1 && after[..|log|] == log && after[|log|] == e
  }

  lemma SendEntry(w: World, p: ProcessId, answer: Answer)
    requires PartsOwned(w) && Guarded(w)
    ensures var log := Step(w, DoSend(p, answer)).log;
            log == w.log || (|log| > 0 && GrowsBy(w.log, log, log[|log| - 1]) && EntryAllowed(log[|log| - 1]))
  {
    hide CallAllowed;
    var after := Step(w, DoSend(p, answer));
    if after != w {
      var b := w.processes[p];
      var key := b.parts[b.next].key;
      assert RunOwnsParts(w.rows, w.home, b);
      assert SendingAt(w, p, key) && key in w.rows;
    }
  }

  lemma ReplyEntry(w: World, p: ProcessId, answer: Answer)
    requires Guarded(w)
    ensures var log := Step(w, DoReply(p, answer)).log;
            log == w.log || (|log| > 0 && GrowsBy(w.log, log, log[|log| - 1]) && EntryAllowed(log[|log| - 1]))
  {
    hide AuthorizeReply;
  }

  lemma OtherEntries(w: World, a: Action)
    requires !a.DoSend? && !a.DoReply?
    ensures Step(w, a).log == w.log
  {
    hide Advance;
    hide ConfirmedRows;
    if IsQuiet(a) {
      hide Step;
      QuietStepKeepsTables(w, a);
    } else if a.DoAdvance? && Step(w, a) != w {
      AdvanceLog(w, a.p, a.ctx);
    }
  }

  lemma AdvanceLog(w: World, p: ProcessId, ctx: Context)
    requires p in w.processes && w.processes[p].Batch?
    ensures Advance(w, p, ctx).log == w.log
  {
    hide Claim;
    hide TurnOf;
    hide ConfirmedRows;
  }

  lemma StepEntries(w: World, a: Action, i: nat)
    requires PartsOwned(w) && Guarded(w) && i < |Step(w, a).log|
    ensures EntryAllowed(Step(w, a).log[i])
  {
    hide Step;
    hide EntryAllowed;
    var log := Step(w, a).log;
    match a {
      case DoSend(p, answer) => SendEntry(w, p, answer);
      case DoReply(p, answer) => ReplyEntry(w, p, answer);
      case _ => OtherEntries(w, a);
    }
    if i < |w.log| && log != w.log {
      assert log[i] == log[..|w.log|][i];
    }
  }

  lemma AdvanceReplies(w: World, p: ProcessId, ctx: Context, q: ProcessId)
    requires p in w.processes && w.processes[p].Batch?
    requires q in Advance(w, p, ctx).processes && Advance(w, p, ctx).processes[q].Reply?
    ensures q in w.processes && Advance(w, p, ctx).processes[q] == w.processes[q]
  {
    hide Claim;
    hide TurnOf;
    hide ConfirmedRows;
  }

  lemma ActorReplies(w: World, a: Action, p: ProcessId)
    requires Guarded(w) && Actor(a) == Some(p) && p in Step(w, a).processes && Step(w, a).processes[p].Reply?
    ensures var r := Step(w, a).processes[p];
            AuthorizeReply(w.db, r.conversation, r.user, true).Done?
  {
    hide CallAllowed;
    hide Advance;
    hide ConfirmedRows;
    hide InPartOrder;
    match a
    case DoAdvance(_, ctx) =>
      if Step(w, a) != w {
        AdvanceReplies(w, p, ctx, p);
      }
    case _ =>
  }

  lemma StepReplies(w: World, a: Action, p: ProcessId)
    requires Guarded(w) && p in Step(w, a).processes && Step(w, a).processes[p].Reply?
    ensures var r := Step(w, a).processes[p];
            AuthorizeReply(w.db, r.conversation, r.user, true).Done?
  {
    hide Step;
    hide AuthorizeReply;
    if Actor(a) == Some(p) {
      ActorReplies(w, a, p);
    } else {
      OthersStay(w, a, p);
    }
  }

  lemma StepKeepsGuarded(w: World, a: Action)
    requires Serial(w) && PartsOwned(w) && Guarded(w)
    ensures Guarded(Step(w, a))
  {
    hide Step;
    hide CallAllowed;
    if a.DoOperate? {
      OperateKeepsGuarded(w, a.op);
    } else {
      var after := Step(w, a);
      StepRowsPersist(w, a);
      forall p, k | SendingAt(after, p, k) && k in after.rows
        ensures CallAllowed(after.db, after.processes[p].conversation, after.rows[k].allowHandedOff)
      {
        StepSenders(w, a, p, k);
        StepParts(w, a, p);
      }
      forall p | p in after.processes && after.processes[p].Reply?
        ensures AuthorizeReply(after.db, after.processes[p].conversation, after.processes[p].user, true).Done?
      {
        StepReplies(w, a, p);
      }
      forall i: nat | i < |after.log| ensures EntryAllowed(after.log[i]) {
        StepEntries(w, a, i);
      }
    }
  }
}
