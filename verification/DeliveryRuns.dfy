/** Every interleaving of batch runs, human replies, handoff and conversation operations, the expiry
    sweeper, repeated prepares, crashes and transaction timeouts. Each transaction is one step; a
    batch run and a human reply hold the advisory lock of their conversation over many steps. */
module DeliveryRuns {
  import opened Options
  import opened Conversations
  import opened Deliveries

  type ProcessId = nat

  /** A row as a batch run read it before its loop. */
  datatype Snapshot = Snapshot(key: Key, status: Status, expiresAt: Option<Time>, reason: Option<Reason>)

  /** Where a batch run stands. Its current part is `parts[next]`. */
  datatype Phase =
    | Reading
    | Deciding
    | Sending(token: Token)
    | Confirming(token: Token, wamid: Wamid)
    | Failing(token: Token, failure: Failure)

  datatype Process =
    | Batch(run: nat, conversation: ConversationId, source: MessageId,
            parts: seq<Snapshot>, next: nat, confirmed: nat, phase: Phase)
    | Reply(run: nat, conversation: ConversationId, user: UserId, sent: bool)

  /** Meta's answer to one call. */
  datatype Answer = Accepted(wamid: Wamid) | Refused(failure: Failure)

  datatype Author = Bot(key: Key, allowHandedOff: bool) | Human(user: UserId)

  /** One call to Meta, with the conversations as they were at that moment. */
  datatype Send = Send(run: nat, conversation: ConversationId, author: Author, answer: Answer, db: Db)

  /** What a batch run returned, beside the number of rows then confirmed. */
  datatype Returned = Returned(source: MessageId, confirmed: nat, terminal: bool, reason: Option<Reason>, actual: nat)

  datatype World = World(
    db: Db, rows: Ledger, outbox: seq<Outbound>,
    home: map<MessageId, ConversationId>,          // the conversation of each source message
    locks: map<ConversationId, ProcessId>, processes: map<ProcessId, Process>,
    nextRun: nat, nextToken: nat, clock: Time,
    log: seq<Send>, results: seq<Returned>,
    begun: set<MessageId>, late: set<MessageId>,   // sources with a run; sources prepared after one
    timedOut: bool)                                // some lock was lost to a transaction timeout

  datatype Action =
    | DoPrepare(key: Key, allowHandedOff: bool, turn: Option<TurnId>)
    | DoSweep
    | DoTick(clock: Time)
    | DoOperate(op: Op)
    | DoBegin(p: ProcessId, source: MessageId)
    | DoRead(p: ProcessId, keys: seq<Key>)
    | DoAdvance(p: ProcessId, ctx: Context)
    | DoSend(p: ProcessId, answer: Answer)
    | DoConfirm(p: ProcessId, stored: bool)
    | DoFail(p: ProcessId)
    | DoAuthorize(p: ProcessId, c: ConversationId, user: UserId, windowOpen: bool)
    | DoReply(p: ProcessId, answer: Answer)
    | DoFinishReply(p: ProcessId)
    | DoCrash(p: ProcessId)
    | DoTimeout(p: ProcessId)

  ghost function RowsOf(rows: Ledger, source: MessageId): set<Key> {
    set k | k in rows && k.source == source
  }

  ghost function ConfirmedRows(rows: Ledger, source: MessageId): set<Key> {
    set k | k in rows && k.source == source && rows[k].status == Confirmed
  }

  /** The source's rows in part order; equal part indexes come in any order. */
  ghost predicate InPartOrder(rows: Ledger, source: MessageId, keys: seq<Key>) {
    && (forall k :: k in keys <==> k in rows && k.source == source)
    && (forall i, j :: 0 <= i < j < |keys| ==> keys[i] != keys[j] && keys[i].part <= keys[j].part)
  }

  function SnapshotOf(rows: Ledger, keys: seq<Key>): seq<Snapshot>
    requires forall k :: k in keys ==> k in rows
  {
    seq(|keys|, i requires 0 <= i < |keys| =>
      Snapshot(keys[i], rows[keys[i]].status, rows[keys[i]].expiresAt, rows[keys[i]].reason))
  }

  function CountConfirmed(parts: seq<Snapshot>): nat {
    if parts == [] then 0
    else CountConfirmed(parts[..|parts| - 1]) + if parts[|parts| - 1].status == Confirmed then 1 else 0
  }

  function Put(w: World, p: ProcessId, process: Process): World {
    w.(processes := w.processes[p := process])
  }

  /** The process ends: its transaction is over and its lock is free. */
  function Leave(w: World, p: ProcessId): World
    requires p in w.processes
  {
    var c := w.processes[p].conversation;
    w.(processes := w.processes - {p},
       locks := if c in w.locks && w.locks[c] == p then w.locks - {c} else w.locks)
  }

  ghost function Return(w: World, p: ProcessId, terminal: bool, reason: Option<Reason>): World
    requires p in w.processes && w.processes[p].Batch?
  {
    var b := w.processes[p];
    Leave(w, p).(results := w.results
      + [Returned(b.source, b.confirmed, terminal, reason, |ConfirmedRows(w.rows, b.source)|)])
  }

  /** The conversation whose lock an operation takes; resuming on an inbound message takes none. */
  function LockOf(db: Db, op: Op): Option<ConversationId> {
    match op
    case DoCreate(c) => Some(c)
    case DoClose(c, _) => Some(c)
    case DoReopen(c) => Some(c)
    case DoAssign(h, _) => if h < |db.handoffs| then Some(db.handoffs[h].conversation) else None
    case DoResolve(h, _, _, _) => if h < |db.handoffs| then Some(db.handoffs[h].conversation) else None
    case DoGetOrCreate(_, _) => None
  }

  /** What the loop does with its current part before it tries to claim. */
  datatype Turn = Skip | Stop(terminal: bool, reason: Option<Reason>) | Try(key: Key)

  function TurnOf(b: Process, now: Time): Turn
    requires b.Batch?
  {
    if b.next >= |b.parts| then Stop(true, None)
    else
      var part := b.parts[b.next];
      if part.status == Confirmed then Skip
      else if IsTerminal(part.status) then
        Stop(true, Some(if part.reason.Some? then part.reason.value else StatusName(part.status)))
      else if part.status == Dispatching && part.expiresAt.Some? && part.expiresAt.value > now then
        Stop(false, Some(DeliveryInProgress))
      else Try(part.key)
  }

  /** One turn of the loop over the parts. */
  ghost function Advance(w: World, p: ProcessId, ctx: Context): World
    requires p in w.processes && w.processes[p].Batch?
  {
    var b := w.processes[p];
    match TurnOf(b, w.clock)
    case Skip => Put(w, p, b.(next := b.next + 1))
    case Stop(terminal, reason) => Return(w, p, terminal, reason)
    case Try(key) =>
      var (rows, result) := Claim(w.rows, w.db, key, ctx, w.clock, w.nextToken);
      var after := w.(rows := rows, nextToken := w.nextToken + 1);
      if result.Claimed? then Put(after, p, b.(phase := Sending(w.nextToken)))
      else Return(after, p, result.terminal, Some(result.reason))
  }

  /** One step. An action that is not possible leaves the world as it is. */
  ghost function Step(w: World, a: Action): World {
    match a
    case DoPrepare(key, allowHandedOff, turn) =>
      if key.source !in w.home || key in w.rows then w
      else w.(rows := PrepareRow(w.rows, key, NewRow(w.home[key.source], allowHandedOff, turn)),
              late := if key.source in w.begun then w.late + {key.source} else w.late)
    case DoSweep => w.(rows := Sweep(w.rows, w.clock))
    case DoTick(clock) => if clock < w.clock then w else w.(clock := clock)
    case DoOperate(op) =>
      var lock := LockOf(w.db, op);
      if lock.Some? && lock.value in w.locks then w else w.(db := Apply(w.db, op))
    case DoBegin(p, source) =>
      if p in w.processes || source !in w.home || RowsOf(w.rows, source) == {} || w.home[source] in w.locks then w
      else
        var c := w.home[source];
        Put(w, p, Batch(w.nextRun, c, source, [], 0, 0, Reading)).(
          locks := w.locks[c := p], nextRun := w.nextRun + 1, begun := w.begun + {source})
    case DoRead(p, keys) =>
      if p !in w.processes || !w.processes[p].Batch? || w.processes[p].phase != Reading
         || !InPartOrder(w.rows, w.processes[p].source, keys) then w
      else
        var parts := SnapshotOf(w.rows, keys);
        Put(w, p, w.processes[p].(parts := parts, confirmed := CountConfirmed(parts), phase := Deciding))
    case DoAdvance(p, ctx) =>
      if p !in w.processes || !w.processes[p].Batch? || w.processes[p].phase != Deciding then w
      else Advance(w, p, ctx)
    case DoSend(p, answer) =>
      if p !in w.processes || !w.processes[p].Batch? || !w.processes[p].phase.Sending?
         || w.processes[p].next >= |w.processes[p].parts| then w
      else
        var b := w.processes[p];
        var key := b.parts[b.next].key;
        var allow := key in w.rows && w.rows[key].allowHandedOff;
        Put(w, p, b.(phase := match answer
                              case Accepted(wamid) => Confirming(b.phase.token, wamid)
                              case Refused(failure) => Failing(b.phase.token, failure))).(
          log := w.log + [Send(b.run, b.conversation, Bot(key, allow), answer, w.db)])
    case DoConfirm(p, stored) =>
      if p !in w.processes || !w.processes[p].Batch? || !w.processes[p].phase.Confirming?
         || w.processes[p].next >= |w.processes[p].parts| then w
      else
        var b := w.processes[p];
        var key := b.parts[b.next].key;
        if !stored || !OwnsClaim(w.rows, key, b.phase.token) then
          Put(w, p, b.(phase := Failing(b.phase.token, Unexpected)))
        else
          var (rows, outbox) := Confirm(w.rows, w.outbox, key, b.phase.token, b.phase.wamid);
          Put(w.(rows := rows, outbox := outbox), p,
              b.(next := b.next + 1, confirmed := b.confirmed + 1, phase := Deciding))
    case DoFail(p) =>
      if p !in w.processes || !w.processes[p].Batch? || !w.processes[p].phase.Failing?
         || w.processes[p].next >= |w.processes[p].parts| then w
      else
        var b := w.processes[p];
        var after := w.(rows := Fail(w.rows, b.parts[b.next].key, b.phase.token, b.phase.failure));
        if b.phase.failure.RateLimited? then Leave(after, p)
        else Return(after, p, true, Some(FailureReason(b.phase.failure)))
    case DoAuthorize(p, c, user, windowOpen) =>
      if p in w.processes || c in w.locks || !AuthorizeReply(w.db, c, user, windowOpen).Done? then w
      else
        Put(w, p, Reply(w.nextRun, c, user, false)).(locks := w.locks[c := p], nextRun := w.nextRun + 1)
    case DoReply(p, answer) =>
      if p !in w.processes || !w.processes[p].Reply? || w.processes[p].sent then w
      else
        var r := w.processes[p];
        Put(w, p, r.(sent := true)).(
          log := w.log + [Send(r.run, r.conversation, Human(r.user), answer, w.db)])
    case DoFinishReply(p) =>
      if p !in w.processes || !w.processes[p].Reply? || !w.processes[p].sent then w else Leave(w, p)
    case DoCrash(p) => if p !in w.processes then w else Leave(w, p)
    case DoTimeout(p) =>
      if p !in w.processes then w
      else Leave(w, p).(processes := w.processes, timedOut := true)
  }

  ghost function Run(w: World, actions: seq<Action>): World
    decreases |actions|
  {
    if actions == [] then w else Run(Step(w, actions[0]), actions[1..])
  }

  /** Any conversations in a consistent state, any source messages, and an empty ledger. */
  ghost predicate Initial(w: World) {
    && Valid(w.db)
    && w.rows == map[] && w.outbox == [] && w.locks == map[] && w.processes == map[]
    && w.log == [] && w.results == [] && w.begun == {} && w.late == {} && !w.timedOut
  }
}
