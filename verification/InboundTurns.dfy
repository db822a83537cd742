/** Inbound turns: messages that arrive close together are collected and then answered together, under leases. */
module InboundTurns {
  import opened Options
  import opened Conversations

  type TurnId = nat
  type MessageId = nat
  type Token = nat

  const PROCESSING_LEASE_MS := 15 * 60 * 1000
  const RECOVERY_BATCH := 100

  /** The configured windows; both are positive, since anything else falls back to a default. */
  datatype Config = Config(debounce: nat, maxWait: nat)

  datatype TurnStatus = Open | Processing | Processed

  datatype Turn = Turn(
    conversation: ConversationId, contact: ContactId, firstAt: Time, lastAt: Time, dueAt: Time,
    lastMessage: MessageId, status: TurnStatus, processingAt: Option<Time>, token: Option<Token>)

  datatype Inbound = Inbound(conversation: ConversationId, contact: ContactId, turn: Option<TurnId>, position: nat)

  datatype Table = Table(turns: seq<Turn>, messages: map<MessageId, Inbound>)

  function Min(a: Time, b: Time): Time {
    if a <= b then a else b
  }

  function Due(cfg: Config, firstAt: Time, lastAt: Time): Time {
    Min(lastAt + cfg.debounce, firstAt + cfg.maxWait)
  }

  // ---------------------------------------------------------------- scheduling a message

  predicate Joinable(s: Table, c: ConversationId, now: Time, t: TurnId) {
    t < |s.turns| && s.turns[t].conversation == c && s.turns[t].status == Open && s.turns[t].dueAt > now
  }

  /** The joinable turn that began last. */
  function FindJoinable(s: Table, c: ConversationId, now: Time, upto: nat): (r: Option<TurnId>)
    requires upto <= |s.turns|
    ensures r.Some? ==>
              && r.value < upto && Joinable(s, c, now, r.value)
              && forall t: nat :: t < upto && Joinable(s, c, now, t) ==> s.turns[t].firstAt <= s.turns[r.value].firstAt
    ensures r.None? ==> forall t: nat :: t < upto ==> !Joinable(s, c, now, t)
  {
    if upto == 0 then None
    else
      var best := FindJoinable(s, c, now, upto - 1);
      if Joinable(s, c, now, upto - 1) && (best.None? || s.turns[best.value].firstAt <= s.turns[upto - 1].firstAt)
      then Some(upto - 1)
      else best
  }

  function MessagesOf(messages: map<MessageId, Inbound>, t: TurnId): set<MessageId> {
    set m | m in messages && messages[m].turn == Some(t)
  }

  datatype Scheduling = Scheduled(table: Table, turn: TurnId) | UnknownMessage | ForeignMessage

  function Schedule(s: Table, cfg: Config, now: Time, m: MessageId, c: ConversationId, contact: ContactId): Scheduling {
    if m !in s.messages then UnknownMessage
    else if s.messages[m].conversation != c || s.messages[m].contact != contact then ForeignMessage
    else if s.messages[m].turn.Some? then Scheduled(s, s.messages[m].turn.value)
    else
      var open := FindJoinable(s, c, now, |s.turns|);
      var t := if open.Some? then open.value else |s.turns|;
      var turns :=
        if open.Some? then
          s.turns[t := s.turns[t].(lastAt := now, dueAt := Due(cfg, s.turns[t].firstAt, now), lastMessage := m)]
        else
          s.turns + [Turn(c, contact, now, now, now + Min(cfg.debounce, cfg.maxWait), m, Open, None, None)];
      var row := s.messages[m].(turn := Some(t), position := |MessagesOf(s.messages, t)|);
      Scheduled(Table(turns, s.messages[m := row]), t)
  }

  /** A new message has been placed: in an open turn of its conversation that was not yet due, which is
      then due once the debounce has passed from now or the maximum wait from its first message; or, if
      there was none, in a new turn. */
  ghost predicate Placed(before: Table, after: Table, cfg: Config, now: Time, m: MessageId, c: ConversationId,
                         contact: ContactId, t: TurnId)
    requires m in before.messages
  {
    && after.messages
       == before.messages[m := before.messages[m].(turn := Some(t), position := |MessagesOf(before.messages, t)|)]
    && (if t < |before.turns| then
          var was := before.turns[t];
          && was.conversation == c && was.status == Open && was.dueAt > now
          && |after.turns| == |before.turns|
          && (forall u: nat :: u < |before.turns| && u != t ==> after.turns[u] == before.turns[u])
          && after.turns[t] == was.(lastAt := now, lastMessage := m, dueAt := after.turns[t].dueAt)
          && after.turns[t].dueAt <= now + cfg.debounce && after.turns[t].dueAt <= was.firstAt + cfg.maxWait
          && (after.turns[t].dueAt == now + cfg.debounce || after.turns[t].dueAt == was.firstAt + cfg.maxWait)
        else
          && (forall u: nat ::
                u < |before.turns| && before.turns[u].conversation == c && before.turns[u].status == Open ==>
                before.turns[u].dueAt <= now)
          && t == |before.turns| && |after.turns| == t + 1 && after.turns[..t] == before.turns
          && after.turns[t] == Turn(c, contact, now, now, after.turns[t].dueAt, m, Open, None, None)
          && after.turns[t].dueAt <= now + cfg.debounce && after.turns[t].dueAt <= now + cfg.maxWait
          && (after.turns[t].dueAt == now + cfg.debounce || after.turns[t].dueAt == now + cfg.maxWait))
  }

  lemma SchedulingPlaces(s: Table, cfg: Config, now: Time, m: MessageId, c: ConversationId, contact: ContactId)
    requires m in s.messages && s.messages[m].conversation == c && s.messages[m].contact == contact
    requires s.messages[m].turn == None
    ensures var result := Schedule(s, cfg, now, m, c, contact);
            result.Scheduled? && Placed(s, result.table, cfg, now, m, c, contact, result.turn)
  {
    hide MessagesOf;
    var found := FindJoinable(s, c, now, |s.turns|);
    var result := Schedule(s, cfg, now, m, c, contact);
    if found.Some? {
      assert Joinable(s, c, now, found.value) && result.turn == found.value;
    } else {
      forall u: nat | u < |s.turns| && s.turns[u].conversation == c && s.turns[u].status == Open
        ensures s.turns[u].dueAt <= now
      {
        assert !Joinable(s, c, now, u);
      }
      assert result.table.turns[..|s.turns|] == s.turns && result.turn == |s.turns|;
    }
  }

  // ---------------------------------------------------------------- leases

  predicate Stale(turn: Turn, now: Time) {
    turn.status == Processing && turn.processingAt.Some? && turn.processingAt.value < now - PROCESSING_LEASE_MS
  }

  predicate Claimable(turn: Turn, now: Time) {
    turn.dueAt <= now && (turn.status == Open || Stale(turn, now))
  }

  function Claim(s: Table, t: TurnId, now: Time, token: Token): (Table, bool) {
    if t < |s.turns| && Claimable(s.turns[t], now) then
      var claimed := s.turns[t].(status := Processing, processingAt := Some(now), token := Some(token));
      (s.(turns := s.turns[t := claimed]), true)
    else (s, false)
  }

  predicate Holds(s: Table, t: TurnId, token: Token) {
    t < |s.turns| && s.turns[t].status == Processing && s.turns[t].token == Some(token)
  }

  function Finish(s: Table, t: TurnId, token: Token, status: TurnStatus): Table {
    if Holds(s, t, token) then
      s.(turns := s.turns[t := s.turns[t].(status := status, processingAt := None, token := None)])
    else s
  }

  function Complete(s: Table, t: TurnId, token: Token): Table {
    Finish(s, t, token, Processed)
  }

  function Release(s: Table, t: TurnId, token: Token): Table {
    Finish(s, t, token, Open)
  }

  // ---------------------------------------------------------------- recovery and rechecks

  predicate Recoverable(turn: Turn, now: Time) {
    (turn.status == Open && turn.dueAt <= now) || Stale(turn, now)
  }

  ghost function AllRecoverable(s: Table, now: Time): set<TurnId> {
    set t: nat | t < |s.turns| && Recoverable(s.turns[t], now)
  }

  /** What the recovery query may return: the earliest due recoverable turns, a hundred at most. */
  ghost predicate Recovery(s: Table, now: Time, found: seq<TurnId>) {
    && (forall i :: 0 <= i < |found| ==> found[i] in AllRecoverable(s, now))
    && (forall i, j :: 0 <= i < j < |found| ==>
          found[i] != found[j] && s.turns[found[i]].dueAt <= s.turns[found[j]].dueAt)
    && |found| == (if |AllRecoverable(s, now)| < RECOVERY_BATCH then |AllRecoverable(s, now)| else RECOVERY_BATCH)
    && (forall t, i :: t in AllRecoverable(s, now) && t !in found && 0 <= i < |found| ==>
          s.turns[found[i]].dueAt <= s.turns[t].dueAt)
  }

  function NextClaimAt(turn: Turn): Time {
    if turn.status == Processing && turn.processingAt.Some? then turn.processingAt.value + PROCESSING_LEASE_MS
    else turn.dueAt
  }

  /** What a job does with its turn: it works on it, comes back after a delay, or ends. */
  datatype Plan = Work | Recheck(delay: int) | Drop

  /** The claim reads the clock at `now`, the decision to come back at `later`. */
  function PlanFor(s: Table, t: TurnId, now: Time, later: Time): Plan {
    if Claim(s, t, now, 0).1 then Work
    else if t < |s.turns| && s.turns[t].status != Processed && NextClaimAt(s.turns[t]) > later then
      var delay := NextClaimAt(s.turns[t]) - later + 1;
      Recheck(if delay < 1 then 1 else delay)
    else Drop
  }

  // ---------------------------------------------------------------- runs

  datatype State = State(table: Table, clock: Time, nextToken: nat)

  datatype Action =
    | DoReceive(m: MessageId, c: ConversationId, contact: ContactId)
    | DoSchedule(m: MessageId, c: ConversationId, contact: ContactId)
    | DoClaim(t: TurnId)
    | DoComplete(t: TurnId, token: Token)
    | DoRelease(t: TurnId, token: Token)
    | DoTick(clock: Time)

  function Step(cfg: Config, s: State, a: Action): State {
    match a
    case DoReceive(m, c, contact) =>
      if m in s.table.messages then s
      else s.(table := s.table.(messages := s.table.messages[m := Inbound(c, contact, None, 0)]))
    case DoSchedule(m, c, contact) =>
      (match Schedule(s.table, cfg, s.clock, m, c, contact)
       case Scheduled(table, _) => s.(table := table)
       case _ => s)
    case DoClaim(t) => s.(table := Claim(s.table, t, s.clock, s.nextToken).0, nextToken := s.nextToken + 1)
    case DoComplete(t, token) => s.(table := Complete(s.table, t, token))
    case DoRelease(t, token) => s.(table := Release(s.table, t, token))
    case DoTick(clock) => if clock < s.clock then s else s.(clock := clock)
  }

  function Run(cfg: Config, s: State, actions: seq<Action>): State
    decreases |actions|
  {
    if actions == [] then s else Run(cfg, Step(cfg, s, actions[0]), actions[1..])
  }

  const EMPTY_TABLE := Table([], map[])

  // ---------------------------------------------------------------- the invariant

  ghost predicate SitsAt(messages: map<MessageId, Inbound>, t: TurnId, i: nat, m: MessageId) {
    m in messages && messages[m].turn == Some(t) && messages[m].position == i
  }

  ghost predicate Taken(messages: map<MessageId, Inbound>, t: TurnId, i: nat) {
    exists m :: SitsAt(messages, t, i, m)
  }

  /** The messages of a turn are numbered 0, 1, 2, ... without gaps or repetitions. */
  ghost predicate Numbered(messages: map<MessageId, Inbound>, t: TurnId) {
    && (forall i: nat :: Taken(messages, t, i) <==> i < |MessagesOf(messages, t)|)
    && (forall i, m, n :: SitsAt(messages, t, i, m) && SitsAt(messages, t, i, n) ==> m == n)
  }

  /** A turn's own facts: when it is due, which message came last, and what a lease on it means. */
  ghost predicate TurnOk(cfg: Config, clock: Time, nextToken: nat, turn: Turn) {
    && turn.firstAt <= turn.lastAt <= clock
    && turn.dueAt == Due(cfg, turn.firstAt, turn.lastAt)
    && (turn.status == Processing <==> turn.token.Some?)
    && (turn.status == Processing <==> turn.processingAt.Some?)
    && (turn.status != Open ==> turn.dueAt <= clock)
    && (turn.status == Processing ==> turn.dueAt <= turn.processingAt.value <= clock)
    && (turn.token.Some? ==> turn.token.value < nextToken)
  }

  ghost predicate LastMessageOk(s: Table, t: TurnId)
    requires t < |s.turns|
  {
    var m := s.turns[t].lastMessage;
    && m in s.messages && s.messages[m].turn == Some(t)
    && s.messages[m].position == |MessagesOf(s.messages, t)| - 1
  }

  ghost predicate MessagesPlaced(s: Table) {
    forall m :: m in s.messages && s.messages[m].turn.Some? ==>
      && s.messages[m].turn.value < |s.turns|
      && s.turns[s.messages[m].turn.value].conversation == s.messages[m].conversation
  }

  ghost predicate OneJoinable(s: Table, now: Time) {
    forall c, t, u :: Joinable(s, c, now, t) && Joinable(s, c, now, u) ==> t == u
  }

  ghost predicate Valid(cfg: Config, s: State) {
    && (forall t: nat :: t < |s.table.turns| ==>
          TurnOk(cfg, s.clock, s.nextToken, s.table.turns[t]) && LastMessageOk(s.table, t))
    && (forall t: nat :: Numbered(s.table.messages, t))
    && MessagesPlaced(s.table)
    && OneJoinable(s.table, s.clock)
  }

  lemma PlacingKeepsNumbered(messages: map<MessageId, Inbound>, m: MessageId, t: TurnId, u: TurnId)
    requires Numbered(messages, u) && m in messages && messages[m].turn == None
    ensures var after := messages[m := messages[m].(turn := Some(t), position := |MessagesOf(messages, t)|)];
            && Numbered(after, u)
            && MessagesOf(after, u) == if u == t then MessagesOf(messages, u) + {m} else MessagesOf(messages, u)
  {
    var n := |MessagesOf(messages, t)|;
    var after := messages[m := messages[m].(turn := Some(t), position := n)];
    assert MessagesOf(after, u) == if u == t then MessagesOf(messages, u) + {m} else MessagesOf(messages, u);
    assert !Taken(messages, u, |MessagesOf(messages, u)|);
    forall i: nat, k ensures SitsAt(after, u, i, k) <==> SitsAt(messages, u, i, k) || (u == t && i == n && k == m) {
    }
    forall i: nat ensures Taken(after, u, i) <==> Taken(messages, u, i) || (u == t && i == n) {
      if u == t && i == n {
        assert SitsAt(after, u, i, m);
      }
      if Taken(messages, u, i) {
        var k :| SitsAt(messages, u, i, k);
        assert SitsAt(after, u, i, k);
      }
    }
    forall i: nat, k, l | SitsAt(after, u, i, k) && SitsAt(after, u, i, l) ensures k == l {
      assert u == t && i == n ==> !Taken(messages, u, i);
    }
  }

  lemma ScheduleKeepsTurn(cfg: Config, s: State, m: MessageId, c: ConversationId, contact: ContactId, u: TurnId)
    requires Valid(cfg, s) && Schedule(s.table, cfg, s.clock, m, c, contact).Scheduled?
    requires u < |Schedule(s.table, cfg, s.clock, m, c, contact).table.turns|
    ensures TurnOk(cfg, s.clock, s.nextToken, Schedule(s.table, cfg, s.clock, m, c, contact).table.turns[u])
  {
    hide Numbered;
    hide LastMessageOk;
    hide OneJoinable;
    if u < |s.table.turns| {
      assert TurnOk(cfg, s.clock, s.nextToken, s.table.turns[u]);
    }
  }

  lemma ScheduleKeepsLastMessage(cfg: Config, s: State, m: MessageId, c: ConversationId, contact: ContactId, u: TurnId)
    requires Valid(cfg, s) && m in s.table.messages && s.table.messages[m].turn.None?
    requires Schedule(s.table, cfg, s.clock, m, c, contact).Scheduled?
    requires u < |Schedule(s.table, cfg, s.clock, m, c, contact).table.turns|
    ensures LastMessageOk(Schedule(s.table, cfg, s.clock, m, c, contact).table, u)
  {
    hide FindJoinable;
    hide Numbered;
    hide OneJoinable;
    hide TurnOk;
    hide MessagesOf;
    var t := Schedule(s.table, cfg, s.clock, m, c, contact).turn;
    PlacingKeepsNumbered(s.table.messages, m, t, u);
    NewTurnIsEmpty(s.table);
    if u < |s.table.turns| {
      assert LastMessageOk(s.table, u);
    }
    assert u == t ==> m !in MessagesOf(s.table.messages, t) by { NotYetPlaced(s.table.messages, m, t); }
  }

  lemma NotYetPlaced(messages: map<MessageId, Inbound>, m: MessageId, t: TurnId)
    requires m in messages && messages[m].turn.None?
    ensures m !in MessagesOf(messages, t)
  {
  }

  lemma NewTurnIsEmpty(s: Table)
    requires MessagesPlaced(s)
    ensures MessagesOf(s.messages, |s.turns|) == {}
  {
  }

  lemma ScheduleKeepsOneJoinable(cfg: Config, s: State, m: MessageId, c: ConversationId, contact: ContactId)
    requires Valid(cfg, s) && Schedule(s.table, cfg, s.clock, m, c, contact).Scheduled?
    ensures OneJoinable(Schedule(s.table, cfg, s.clock, m, c, contact).table, s.clock)
  {
    hide Numbered;
    hide TurnOk;
    hide LastMessageOk;
    var result := Schedule(s.table, cfg, s.clock, m, c, contact);
    forall d: ConversationId, t: TurnId, u: TurnId | Joinable(result.table, d, s.clock, t)
      && Joinable(result.table, d, s.clock, u)
      ensures t == u
    {
      assert Joinable(s.table, d, s.clock, t) || t == result.turn;
      assert Joinable(s.table, d, s.clock, u) || u == result.turn;
    }
  }

  lemma ScheduleKeepsValid(cfg: Config, s: State, m: MessageId, c: ConversationId, contact: ContactId)
    requires Valid(cfg, s)
    ensures Valid(cfg, Step(cfg, s, DoSchedule(m, c, contact)))
  {
    var result := Schedule(s.table, cfg, s.clock, m, c, contact);
    if result.Scheduled? && s.table.messages[m].turn.None? {
      hide Numbered;
      hide FindJoinable;
      hide TurnOk;
      hide LastMessageOk;
      forall u: nat ensures Numbered(result.table.messages, u) {
        PlacingKeepsNumbered(s.table.messages, m, result.turn, u);
      }
      forall u: nat | u < |result.table.turns|
        ensures TurnOk(cfg, s.clock, s.nextToken, result.table.turns[u]) && LastMessageOk(result.table, u)
      {
        ScheduleKeepsTurn(cfg, s, m, c, contact, u);
        ScheduleKeepsLastMessage(cfg, s, m, c, contact, u);
      }
      ScheduleKeepsOneJoinable(cfg, s, m, c, contact);
    }
  }

  /** What leases and the clock do to one turn: it stays in order, and can be joined only if it could. */
  lemma TurnStep(cfg: Config, s: State, a: Action, t: TurnId)
    requires t < |s.table.turns| && TurnOk(cfg, s.clock, s.nextToken, s.table.turns[t])
    requires a.DoClaim? || a.DoComplete? || a.DoRelease? || a.DoTick?
    ensures var after := Step(cfg, s, a);
            && |after.table.turns| == |s.table.turns| && after.table.messages == s.table.messages
            && TurnOk(cfg, after.clock, after.nextToken, after.table.turns[t])
            && after.table.turns[t].lastMessage == s.table.turns[t].lastMessage
            && after.table.turns[t].conversation == s.table.turns[t].conversation
            && forall c :: Joinable(after.table, c, after.clock, t) ==> Joinable(s.table, c, s.clock, t)
  {
    hide MessagesOf;
  }

  lemma SameRows(cfg: Config, s: State, a: Action)
    requires a.DoClaim? || a.DoComplete? || a.DoRelease? || a.DoTick?
    ensures var after := Step(cfg, s, a).table;
            |after.turns| == |s.table.turns| && after.messages == s.table.messages
  {
  }

  lemma TurnStepKeepsValid(cfg: Config, s: State, a: Action)
    requires Valid(cfg, s) && (a.DoClaim? || a.DoComplete? || a.DoRelease? || a.DoTick?)
    ensures Valid(cfg, Step(cfg, s, a))
  {
    hide Step;
    hide Numbered;
    hide MessagesOf;
    hide TurnOk;
    var after := Step(cfg, s, a);
    SameRows(cfg, s, a);
    forall t: nat | t < |s.table.turns|
      ensures TurnOk(cfg, after.clock, after.nextToken, after.table.turns[t]) && LastMessageOk(after.table, t)
      ensures after.table.turns[t].conversation == s.table.turns[t].conversation
      ensures forall c :: Joinable(after.table, c, after.clock, t) ==> Joinable(s.table, c, s.clock, t)
    {
      assert TurnOk(cfg, s.clock, s.nextToken, s.table.turns[t]) && LastMessageOk(s.table, t);
      TurnStep(cfg, s, a, t);
    }
  }

  lemma ReceiveKeepsValid(cfg: Config, s: State, m: MessageId, c: ConversationId, contact: ContactId)
    requires Valid(cfg, s)
    ensures Valid(cfg, Step(cfg, s, DoReceive(m, c, contact)))
  {
    var after := Step(cfg, s, DoReceive(m, c, contact));
    if after != s {
      forall t: nat ensures MessagesOf(after.table.messages, t) == MessagesOf(s.table.messages, t) {
      }
      forall t: nat ensures Numbered(after.table.messages, t) {
        assert Numbered(s.table.messages, t);
        assert forall i: nat, k :: SitsAt(after.table.messages, t, i, k) <==> SitsAt(s.table.messages, t, i, k);
        assert forall i: nat :: Taken(after.table.messages, t, i) <==> Taken(s.table.messages, t, i);
      }
      forall d: ConversationId, t: TurnId, u: TurnId | Joinable(after.table, d, after.clock, t)
        && Joinable(after.table, d, after.clock, u)
        ensures t == u
      {
        assert Joinable(s.table, d, s.clock, t) && Joinable(s.table, d, s.clock, u);
      }
      forall t: nat | t < |after.table.turns|
        ensures TurnOk(cfg, after.clock, after.nextToken, after.table.turns[t]) && LastMessageOk(after.table, t)
      {
        assert TurnOk(cfg, s.clock, s.nextToken, s.table.turns[t]) && LastMessageOk(s.table, t);
      }
    }
  }

  lemma StepKeepsValid(cfg: Config, s: State, a: Action)
    requires Valid(cfg, s)
    ensures Valid(cfg, Step(cfg, s, a))
  {
    hide Valid;
    match a
    case DoReceive(m, c, contact) => ReceiveKeepsValid(cfg, s, m, c, contact);
    case DoSchedule(m, c, contact) => ScheduleKeepsValid(cfg, s, m, c, contact);
    case _ => TurnStepKeepsValid(cfg, s, a);
  }

  lemma {:induction false} EveryRunIsValid(cfg: Config, s: State, actions: seq<Action>)
    requires Valid(cfg, s)
    ensures Valid(cfg, Run(cfg, s, actions))
    decreases |actions|
  {
    hide Valid;
    hide Step;
    if actions != [] {
      StepKeepsValid(cfg, s, actions[0]);
      EveryRunIsValid(cfg, Step(cfg, s, actions[0]), actions[1..]);
    }
  }

  // ---------------------------------------------------------------- the messages of a turn

  ghost function MessageAt(messages: map<MessageId, Inbound>, t: TurnId, i: nat): (m: MessageId)
    requires Taken(messages, t, i)
    ensures SitsAt(messages, t, i, m)
  {
    var m :| SitsAt(messages, t, i, m);
    m
  }

  /** The messages of a turn in position order, as a claimer reads them. */
  ghost function TurnMessages(messages: map<MessageId, Inbound>, t: TurnId): seq<MessageId>
    requires Numbered(messages, t)
  {
    seq(|MessagesOf(messages, t)|, i requires 0 <= i < |MessagesOf(messages, t)| => MessageAt(messages, t, i))
  }

  lemma SamePlaces(before: map<MessageId, Inbound>, after: map<MessageId, Inbound>, t: TurnId)
    requires Numbered(before, t) && Numbered(after, t)
    requires forall i: nat, m :: SitsAt(before, t, i, m) <==> SitsAt(after, t, i, m)
    ensures TurnMessages(after, t) == TurnMessages(before, t)
  {
    assert MessagesOf(before, t) == MessagesOf(after, t) by {
      forall m ensures m in MessagesOf(before, t) <==> m in MessagesOf(after, t) {
        if m in MessagesOf(before, t) {
          assert SitsAt(before, t, before[m].position, m);
        }
        if m in MessagesOf(after, t) {
          assert SitsAt(after, t, after[m].position, m);
        }
      }
    }
    forall i: nat | i < |MessagesOf(before, t)| ensures MessageAt(after, t, i) == MessageAt(before, t, i) {
      assert SitsAt(after, t, i, MessageAt(before, t, i));
    }
  }

  /** Scheduling a new message appends it to one turn: to the open turn that is not yet due, if there
      is one, and else to a new one. The other turns keep their messages. */
  lemma ScheduleAppends(cfg: Config, s: State, m: MessageId, c: ConversationId, contact: ContactId, u: TurnId)
    requires Valid(cfg, s) && m in s.table.messages
          && s.table.messages[m] == Inbound(c, contact, None, s.table.messages[m].position)
    ensures var result := Schedule(s.table, cfg, s.clock, m, c, contact);
            && result.Scheduled? && Valid(cfg, s.(table := result.table))
            && (result.turn < |s.table.turns| ==> Joinable(s.table, c, s.clock, result.turn))
            && (result.turn >= |s.table.turns| ==> forall t: nat :: !Joinable(s.table, c, s.clock, t))
            && TurnMessages(result.table.messages, u)
               == TurnMessages(s.table.messages, u) + if u == result.turn then [m] else []
  {
    hide FindJoinable;
    hide Numbered;
    hide TurnMessages;
    var result := Schedule(s.table, cfg, s.clock, m, c, contact);
    ScheduleKeepsValid(cfg, s, m, c, contact);
    PlacingAppends(s.table.messages, m, result.turn, u);
  }

  lemma PlacingAppends(messages: map<MessageId, Inbound>, m: MessageId, t: TurnId, u: TurnId)
    requires Numbered(messages, u) && m in messages && messages[m].turn == None
    ensures var after := messages[m := messages[m].(turn := Some(t), position := |MessagesOf(messages, t)|)];
            Numbered(after, u) && TurnMessages(after, u) == TurnMessages(messages, u) + if u == t then [m] else []
  {
    var n := |MessagesOf(messages, t)|;
    var after := messages[m := messages[m].(turn := Some(t), position := n)];
    PlacingKeepsNumbered(messages, m, t, u);
    if u != t {
      forall i: nat, k ensures SitsAt(messages, u, i, k) <==> SitsAt(after, u, i, k) {
      }
      SamePlaces(messages, after, u);
    } else {
      assert m !in MessagesOf(messages, t);
      assert SitsAt(after, t, n, m) && MessageAt(after, t, n) == m;
      forall i: nat | i < n ensures MessageAt(after, t, i) == MessageAt(messages, t, i) {
        assert SitsAt(after, t, i, MessageAt(messages, t, i));
      }
    }
  }

  /** Scheduling a message a second time changes nothing and names the same turn. */
  lemma SchedulingTwiceChangesNothing(cfg: Config, s: Table, now: Time, later: Time, m: MessageId,
        c: ConversationId, contact: ContactId)
    requires Schedule(s, cfg, now, m, c, contact).Scheduled?
    ensures var first := Schedule(s, cfg, now, m, c, contact);
            Schedule(first.table, cfg, later, m, c, contact) == first
  {
  }

  // ---------------------------------------------------------------- frozen from the first claim on

  ghost predicate SameTurn(s: State, after: State, t: TurnId)
    requires t < |s.table.turns|
    requires Numbered(s.table.messages, t) && Numbered(after.table.messages, t)
  {
    && t < |after.table.turns|
    && (var a, b := s.table.turns[t], after.table.turns[t];
        a.firstAt == b.firstAt && a.lastAt == b.lastAt && a.dueAt == b.dueAt && a.lastMessage == b.lastMessage)
    && TurnMessages(after.table.messages, t) == TurnMessages(s.table.messages, t)
  }

  lemma DueTurnKeepsMessages(cfg: Config, s: State, a: Action, t: TurnId)
    requires Valid(cfg, s) && t < |s.table.turns| && s.table.turns[t].dueAt <= s.clock
    ensures Valid(cfg, Step(cfg, s, a)) && SameTurn(s, Step(cfg, s, a), t)
  {
    hide Valid;
    hide FindJoinable;
    StepKeepsValid(cfg, s, a);
    var after := Step(cfg, s, a);
    assert Numbered(s.table.messages, t) && Numbered(after.table.messages, t) by {
      NumberedOf(cfg, s, t);
      NumberedOf(cfg, after, t);
    }
    hide Numbered;
    forall i: nat, m ensures SitsAt(s.table.messages, t, i, m) <==> SitsAt(after.table.messages, t, i, m) {
    }
    SamePlaces(s.table.messages, after.table.messages, t);
  }

  lemma NumberedOf(cfg: Config, s: State, t: TurnId)
    requires Valid(cfg, s)
    ensures Numbered(s.table.messages, t)
  {
  }

  lemma ClockGrows(cfg: Config, s: State, a: Action)
    ensures Step(cfg, s, a).clock >= s.clock
    ensures Step(cfg, s, a).nextToken >= s.nextToken
    ensures |Step(cfg, s, a).table.turns| >= |s.table.turns|
  {
    hide FindJoinable;
  }

  lemma {:induction false} DueTurnStays(cfg: Config, s: State, actions: seq<Action>, t: TurnId)
    requires Valid(cfg, s) && t < |s.table.turns| && s.table.turns[t].dueAt <= s.clock
    ensures Valid(cfg, Run(cfg, s, actions)) && SameTurn(s, Run(cfg, s, actions), t)
    decreases |actions|
  {
    hide Valid;
    hide Step;
    hide TurnMessages;
    EveryRunIsValid(cfg, s, actions);
    NumberedOf(cfg, s, t);
    NumberedOf(cfg, Run(cfg, s, actions), t);
    hide Numbered;
    if actions != [] {
      var next := Step(cfg, s, actions[0]);
      DueTurnKeepsMessages(cfg, s, actions[0], t);
      ClockGrows(cfg, s, actions[0]);
      DueTurnStays(cfg, next, actions[1..], t);
    }
  }

  /** From its first successful claim on, through releases, new claims and completion, a turn keeps
      exactly the messages it had then, in the same order, and its due time. */
  lemma FrozenFromTheFirstClaim(cfg: Config, s: State, t: TurnId, actions: seq<Action>)
    requires Valid(cfg, s) && Claim(s.table, t, s.clock, s.nextToken).1
    ensures var after := Run(cfg, Step(cfg, s, DoClaim(t)), actions);
            Valid(cfg, after) && SameTurn(s, after, t)
  {
    hide Valid;
    hide TurnMessages;
    hide Numbered;
    DueTurnKeepsMessages(cfg, s, DoClaim(t), t);
    ClockGrows(cfg, s, DoClaim(t));
    DueTurnStays(cfg, Step(cfg, s, DoClaim(t)), actions, t);
  }

  lemma StepDelaysDue(cfg: Config, s: State, a: Action, t: TurnId)
    requires Valid(cfg, s) && t < |s.table.turns|
    ensures var before, after := s.table.turns[t], Step(cfg, s, a).table.turns;
            t < |after| && after[t].firstAt == before.firstAt && after[t].dueAt >= before.dueAt
  {
    hide Numbered;
    hide FindJoinable;
    hide LastMessageOk;
    assert TurnOk(cfg, s.clock, s.nextToken, s.table.turns[t]);
  }

  /** The due time never moves back and never passes the maximum wait after the first message. */
  lemma {:induction false} DueOnlyMovesOnUpToTheMaximum(cfg: Config, s: State, actions: seq<Action>, t: TurnId)
    requires Valid(cfg, s) && t < |s.table.turns|
    ensures var before, after := s.table.turns[t], Run(cfg, s, actions).table.turns;
            t < |after| && after[t].firstAt == before.firstAt
            && before.dueAt <= after[t].dueAt <= after[t].firstAt + cfg.maxWait
    decreases |actions|
  {
    hide Step;
    hide Numbered;
    if actions == [] {
      assert TurnOk(cfg, s.clock, s.nextToken, s.table.turns[t]);
    } else {
      hide Valid;
      StepDelaysDue(cfg, s, actions[0], t);
      StepKeepsValid(cfg, s, actions[0]);
      DueOnlyMovesOnUpToTheMaximum(cfg, Step(cfg, s, actions[0]), actions[1..], t);
    }
  }

  /** From an empty table: at most one turn of a conversation can be joined at any time, the messages
      of each turn are numbered 0 to n-1, and its last message is the one numbered n-1. */
  lemma EveryReachableTableIsValid(cfg: Config, clock: Time, actions: seq<Action>)
    ensures var s := Run(cfg, State(EMPTY_TABLE, clock, 0), actions);
            && Valid(cfg, s) && OneJoinable(s.table, s.clock)
            && forall t: nat :: t < |s.table.turns| ==>
                 && Numbered(s.table.messages, t)
                 && s.table.turns[t].lastMessage in MessagesOf(s.table.messages, t)
                 && s.table.messages[s.table.turns[t].lastMessage].position == |MessagesOf(s.table.messages, t)| - 1
  {
    var start := State(EMPTY_TABLE, clock, 0);
    forall t: nat ensures Numbered(EMPTY_TABLE.messages, t) {
      assert MessagesOf(EMPTY_TABLE.messages, t) == {};
    }
    EveryRunIsValid(cfg, start, actions);
    var s := Run(cfg, start, actions);
    assert forall t: nat :: t < |s.table.turns| ==> LastMessageOk(s.table, t);
  }

  // ---------------------------------------------------------------- fencing

  lemma FreshTokensOnly(cfg: Config, s: State, a: Action, t: TurnId, token: Token)
    requires token < s.nextToken && !Holds(s.table, t, token)
    ensures !Holds(Step(cfg, s, a).table, t, token)
  {
    hide FindJoinable;
  }

  /** Whoever no longer holds a turn never holds it again under the same token, and completing or
      releasing with that token changes nothing. */
  lemma {:induction false} OldTokensAreFenced(cfg: Config, s: State, actions: seq<Action>, t: TurnId, token: Token)
    requires token < s.nextToken && !Holds(s.table, t, token)
    ensures var after := Run(cfg, s, actions).table;
            !Holds(after, t, token) && Complete(after, t, token) == after && Release(after, t, token) == after
    decreases |actions|
  {
    hide Step;
    if actions != [] {
      FreshTokensOnly(cfg, s, actions[0], t, token);
      ClockGrows(cfg, s, actions[0]);
      OldTokensAreFenced(cfg, Step(cfg, s, actions[0]), actions[1..], t, token);
    }
  }

  /** A processed turn is never touched again. */
  lemma {:induction false} ProcessedIsForever(cfg: Config, s: State, actions: seq<Action>, t: TurnId)
    requires t < |s.table.turns| && s.table.turns[t].status == Processed
    ensures t < |Run(cfg, s, actions).table.turns| && Run(cfg, s, actions).table.turns[t] == s.table.turns[t]
    decreases |actions|
  {
    hide FindJoinable;
    if actions != [] {
      ProcessedIsForever(cfg, Step(cfg, s, actions[0]), actions[1..], t);
    }
  }

  /** The holder that claimed at `claimedAt` still has its turn, or its lease is over. */
  ghost predicate StillLeased(s: State, t: TurnId, token: Token, claimedAt: Time) {
    || (Holds(s.table, t, token) && s.table.turns[t].processingAt == Some(claimedAt))
    || s.clock > claimedAt + PROCESSING_LEASE_MS
  }

  lemma StepKeepsLease(cfg: Config, s: State, a: Action, t: TurnId, token: Token, claimedAt: Time)
    requires StillLeased(s, t, token, claimedAt) && a != DoComplete(t, token) && a != DoRelease(t, token)
    ensures StillLeased(Step(cfg, s, a), t, token, claimedAt)
  {
    hide FindJoinable;
  }

  lemma {:induction false} RunKeepsLease(cfg: Config, s: State, actions: seq<Action>, t: TurnId,
        token: Token, claimedAt: Time)
    requires StillLeased(s, t, token, claimedAt) && DoComplete(t, token) !in actions && DoRelease(t, token) !in actions
    ensures StillLeased(Run(cfg, s, actions), t, token, claimedAt)
    decreases |actions|
  {
    hide Step;
    hide StillLeased;
    if actions != [] {
      StepKeepsLease(cfg, s, actions[0], t, token, claimedAt);
      RunKeepsLease(cfg, Step(cfg, s, actions[0]), actions[1..], t, token, claimedAt);
    }
  }

  /** A turn whose holder has neither completed nor released it is claimed again only after the
      whole lease has passed. */
  lemma ClaimsOverlapOnlyAfterTheLease(cfg: Config, s: State, t: TurnId, actions: seq<Action>)
    requires Claim(s.table, t, s.clock, s.nextToken).1
    requires DoComplete(t, s.nextToken) !in actions && DoRelease(t, s.nextToken) !in actions
    requires var later := Run(cfg, Step(cfg, s, DoClaim(t)), actions);
             Claim(later.table, t, later.clock, later.nextToken).1
    ensures Run(cfg, Step(cfg, s, DoClaim(t)), actions).clock > s.clock + 900_000
  {
    RunKeepsLease(cfg, Step(cfg, s, DoClaim(t)), actions, t, s.nextToken, s.clock);
  }

  // ---------------------------------------------------------------- recovery and rechecks

  /** What recovery looks for is exactly what a claim accepts, although recovery does not ask whether
      a stale turn is due. */
  lemma RecoverableIffClaimable(cfg: Config, s: State, t: TurnId, now: Time)
    requires Valid(cfg, s) && t < |s.table.turns|
    ensures Recoverable(s.table.turns[t], now) <==> Claimable(s.table.turns[t], now)
  {
    hide Numbered;
    assert TurnOk(cfg, s.clock, s.nextToken, s.table.turns[t]);
  }

  ghost function Elements(found: seq<TurnId>): set<TurnId> {
    set t | t in found
  }

  lemma {:induction false} DistinctCount(found: seq<TurnId>)
    requires forall i, j :: 0 <= i < j < |found| ==> found[i] != found[j]
    ensures |Elements(found)| == |found|
  {
    if found == [] {
      assert Elements(found) == {};
    } else {
      var rest, last := found[..|found| - 1], found[|found| - 1];
      DistinctCount(rest);
      assert last !in rest;
      assert found == rest + [last];
      assert Elements(found) == Elements(rest) + {last};
    }
  }

  lemma SubsetCount(got: set<TurnId>, all: set<TurnId>, t: TurnId)
    requires got <= all && t in all && t !in got
    ensures |got| < |all|
  {
    assert all == got + (all - got) && t in all - got;
  }

  /** A claimable turn that recovery has not returned. */
  ghost predicate LeftOut(s: Table, now: Time, found: seq<TurnId>, t: TurnId) {
    t < |s.turns| && Claimable(s.turns[t], now) && t !in found
  }

  lemma AllElements(got: set<TurnId>, all: set<TurnId>)
    requires got <= all && |got| == |all|
    ensures got == all
  {
    if t :| t in all && t !in got {
      SubsetCount(got, all, t);
    }
  }

  /** Recovery returns only turns that a claim accepts, and returns all of them if and only if there are
      no more than a hundred; any it leaves out is due no earlier than those it returns. */
  lemma RecoveryIsExactUpToItsCap(cfg: Config, s: State, now: Time, found: seq<TurnId>)
    requires Valid(cfg, s) && Recovery(s.table, now, found)
    ensures forall t :: t in found ==> t < |s.table.turns| && Claimable(s.table.turns[t], now)
    ensures (forall t: TurnId :: !LeftOut(s.table, now, found, t))
       <==> |AllRecoverable(s.table, now)| <= 100
    ensures forall t: TurnId, u: TurnId :: LeftOut(s.table, now, found, t) && u in found ==>
              |found| == 100 && s.table.turns[u].dueAt <= s.table.turns[t].dueAt
  {
    hide Valid;
    hide Claimable;
    hide Recoverable;
    var all, got := AllRecoverable(s.table, now), Elements(found);
    forall t: nat ensures t in all <==> t < |s.table.turns| && Claimable(s.table.turns[t], now) {
      if t < |s.table.turns| {
        RecoverableIffClaimable(cfg, s, t, now);
      }
    }
    DistinctCount(found);
    assert got <= all;
    forall t: TurnId, u: TurnId | LeftOut(s.table, now, found, t) && u in found
      ensures |found| == RECOVERY_BATCH && s.table.turns[u].dueAt <= s.table.turns[t].dueAt
    {
      SubsetCount(got, all, t);
      var i :| 0 <= i < |found| && found[i] == u;
    }
    if |all| <= RECOVERY_BATCH {
      AllElements(got, all);
      assert forall t :: t in all ==> t in found;
    } else {
      assert got != all;
      var t :| t in all && t !in got;
      assert LeftOut(s.table, now, found, t);
    }
  }

  // A burst of messages, one in each of many conversations, fills the recovery batch.

  function Burst(n: nat): seq<Action> {
    if n == 0 then [] else Burst(n - 1) + [DoReceive(n - 1, n - 1, 0), DoSchedule(n - 1, n - 1, 0)]
  }

  function BurstTable(cfg: Config, n: nat): Table {
    Table(seq(n, i requires 0 <= i < n => Turn(i, 0, 0, 0, Min(cfg.debounce, cfg.maxWait), i, Open, None, None)),
          map i: nat | i < n :: Inbound(i, 0, Some(i), 0))
  }

  lemma {:induction false} RunInTwo(cfg: Config, s: State, a: seq<Action>, b: seq<Action>)
    ensures Run(cfg, s, a + b) == Run(cfg, Run(cfg, s, a), b)
    decreases |a|
  {
    hide Step;
    if a == [] {
      assert a + b == b;
    } else {
      assert (a + b)[1..] == a[1..] + b;
      RunInTwo(cfg, Step(cfg, s, a[0]), a[1..], b);
    }
  }

  lemma BurstGrows(cfg: Config, n: nat)
    ensures var s := State(BurstTable(cfg, n), 0, 0);
            Step(cfg, Step(cfg, s, DoReceive(n, n, 0)), DoSchedule(n, n, 0)) == State(BurstTable(cfg, n + 1), 0, 0)
  {
    var s := State(BurstTable(cfg, n), 0, 0);
    var received := Step(cfg, s, DoReceive(n, n, 0)).table;
    assert received.messages[n] == Inbound(n, 0, None, 0);
    assert FindJoinable(received, n, 0, n) == None;
    assert MessagesOf(received.messages, n) == {};
    var scheduled := Schedule(received, cfg, 0, n, n, 0).table;
    assert scheduled.turns == BurstTable(cfg, n + 1).turns;
    assert scheduled.messages == BurstTable(cfg, n + 1).messages;
  }

  lemma RunOfTwo(cfg: Config, s: State, a: Action, b: Action)
    ensures Run(cfg, s, [a, b]) == Step(cfg, Step(cfg, s, a), b)
  {
    hide Step;
    assert [a, b][1..] == [b] && [b][1..] == [];
    assert Run(cfg, Step(cfg, s, a), [b]) == Run(cfg, Step(cfg, Step(cfg, s, a), b), []);
  }

  lemma NoBurst(cfg: Config)
    ensures Run(cfg, State(EMPTY_TABLE, 0, 0), Burst(0)) == State(BurstTable(cfg, 0), 0, 0)
  {
    assert BurstTable(cfg, 0).messages == map[];
  }

  lemma {:induction false} BurstRuns(cfg: Config, n: nat)
    ensures Run(cfg, State(EMPTY_TABLE, 0, 0), Burst(n)) == State(BurstTable(cfg, n), 0, 0)
  {
    hide Step;
    hide Run;
    hide BurstTable;
    if n == 0 {
      NoBurst(cfg);
    } else {
      var a, b := DoReceive(n - 1, n - 1, 0), DoSchedule(n - 1, n - 1, 0);
      BurstRuns(cfg, n - 1);
      BurstGrows(cfg, n - 1);
      RunInTwo(cfg, State(EMPTY_TABLE, 0, 0), Burst(n - 1), [a, b]);
      RunOfTwo(cfg, State(BurstTable(cfg, n - 1), 0, 0), a, b);
    }
  }

  lemma BurstThenTick(cfg: Config, n: nat, clock: nat)
    ensures Run(cfg, State(EMPTY_TABLE, 0, 0), Burst(n) + [DoTick(clock)]) == State(BurstTable(cfg, n), clock, 0)
  {
    var s := State(BurstTable(cfg, n), 0, 0);
    BurstRuns(cfg, n);
    RunInTwo(cfg, State(EMPTY_TABLE, 0, 0), Burst(n), [DoTick(clock)]);
    hide Burst;
    hide BurstTable;
    assert Run(cfg, s, [DoTick(clock)]) == Run(cfg, Step(cfg, s, DoTick(clock)), []);
  }

  ghost function Below(n: nat): (r: set<TurnId>)
    ensures |r| == n && forall t: nat :: t in r <==> t < n
  {
    if n == 0 then {} else Below(n - 1) + {n - 1}
  }

  lemma BurstIsRecoverable(cfg: Config, n: nat, now: Time)
    requires now >= cfg.maxWait
    ensures AllRecoverable(BurstTable(cfg, n), now) == Below(n)
  {
    var all := AllRecoverable(BurstTable(cfg, n), now);
    forall t: nat ensures t in all <==> t in Below(n) {
      if t < n {
        assert BurstTable(cfg, n).turns[t] == Turn(t, 0, 0, 0, Min(cfg.debounce, cfg.maxWait), t, Open, None, None);
      }
    }
  }

  // The query always has an answer: the recoverable turns by due time, cut off after a hundred.

  ghost predicate ByDueTime(s: Table, found: seq<TurnId>) {
    && (forall i :: 0 <= i < |found| ==> found[i] < |s.turns|)
    && forall i, j :: 0 <= i < j < |found| ==>
         found[i] != found[j] && s.turns[found[i]].dueAt <= s.turns[found[j]].dueAt
  }

  lemma {:induction false} Earliest(s: Table, all: set<TurnId>) returns (t: TurnId)
    requires all != {} && forall u: TurnId :: u in all ==> u < |s.turns|
    ensures t in all && forall u: TurnId :: u in all ==> s.turns[t].dueAt <= s.turns[u].dueAt
    decreases |all|
  {
    t :| t in all;
    if all != {t} {
      assert |all - {t}| < |all| && all == all - {t} + {t};
      var other := Earliest(s, all - {t});
      if s.turns[other].dueAt < s.turns[t].dueAt {
        t := other;
      }
    }
  }

  lemma {:induction false} InOrder(s: Table, all: set<TurnId>) returns (found: seq<TurnId>)
    requires forall t: TurnId :: t in all ==> t < |s.turns|
    ensures |found| == |all| && ByDueTime(s, found) && forall t: TurnId :: t in found <==> t in all
    decreases |all|
  {
    if all == {} {
      found := [];
    } else {
      var t := Earliest(s, all);
      var rest := InOrder(s, all - {t});
      found := [t] + rest;
      forall i, j | 0 <= i < j < |found|
        ensures found[i] != found[j] && s.turns[found[i]].dueAt <= s.turns[found[j]].dueAt
      {
        assert found[j] == rest[j - 1] && rest[j - 1] in rest;
        assert i > 0 ==> found[i] == rest[i - 1];
      }
    }
  }

  lemma CutOff(s: Table, order: seq<TurnId>, n: nat, i: nat, t: TurnId)
    requires ByDueTime(s, order) && i < n <= |order| && t in order && t !in order[..n]
    ensures s.turns[order[i]].dueAt <= s.turns[t].dueAt
  {
    var k :| 0 <= k < |order| && order[k] == t;
    assert order[..n] + order[n..] == order;
    assert k >= n;
  }

  /** The answer that consists of the first `n` turns of an order. */
  lemma FrontAnswers(s: Table, now: Time, order: seq<TurnId>, n: nat)
    requires ByDueTime(s, order) && |order| == |AllRecoverable(s, now)|
    requires forall t: TurnId :: t in order <==> t in AllRecoverable(s, now)
    requires n == if |order| < RECOVERY_BATCH then |order| else RECOVERY_BATCH
    ensures Recovery(s, now, order[..n])
  {
    hide AllRecoverable;
    var found := order[..n];
    forall i | 0 <= i < |found| ensures found[i] in AllRecoverable(s, now) {
      assert order[i] in order;
    }
    forall i, j | 0 <= i < j < |found|
      ensures found[i] != found[j] && s.turns[found[i]].dueAt <= s.turns[found[j]].dueAt
    {
      assert order[i] != order[j];
    }
    forall t, i | t in AllRecoverable(s, now) && t !in found && 0 <= i < |found|
      ensures s.turns[found[i]].dueAt <= s.turns[t].dueAt
    {
      CutOff(s, order, n, i, t);
    }
  }

  lemma RecoveryAnswers(s: Table, now: Time) returns (found: seq<TurnId>)
    ensures Recovery(s, now, found)
  {
    hide Recovery;
    var order := InOrder(s, AllRecoverable(s, now));
    var n := if |order| < RECOVERY_BATCH then |order| else RECOVERY_BATCH;
    FrontAnswers(s, now, order, n);
    found := order[..n];
  }

  /** The cap is reached: after a message in each of a hundred and one conversations and the maximum
      wait, the recovery query has an answer, and every answer it may give misses a turn that could be
      claimed. */
  lemma ABurstOverflowsRecovery(cfg: Config)
    ensures var s := Run(cfg, State(EMPTY_TABLE, 0, 0), Burst(101) + [DoTick(cfg.maxWait)]);
            && (exists found :: Recovery(s.table, s.clock, found))
            && forall found :: Recovery(s.table, s.clock, found) ==>
                 exists t: TurnId :: LeftOut(s.table, s.clock, found, t)
  {
    var n := RECOVERY_BATCH + 1;
    BurstThenTick(cfg, n, cfg.maxWait);
    BurstIsRecoverable(cfg, n, cfg.maxWait);
    EveryReachableTableIsValid(cfg, 0, Burst(n) + [DoTick(cfg.maxWait)]);
    hide Run;
    hide Burst;
    hide BurstTable;
    hide Recovery;
    hide AllRecoverable;
    var s := State(BurstTable(cfg, n), cfg.maxWait, 0);
    var answer := RecoveryAnswers(s.table, s.clock);
    forall found | Recovery(s.table, s.clock, found) ensures exists t: TurnId :: LeftOut(s.table, s.clock, found, t) {
      RecoveryIsExactUpToItsCap(cfg, s, s.clock, found);
    }
  }

  /** Exactly when an unfinished turn can be claimed, in terms of the time its job comes back at. */
  lemma ClaimableFromNextClaimAt(cfg: Config, s: State, t: TurnId, now: Time)
    requires Valid(cfg, s) && t < |s.table.turns| && s.table.turns[t].status != Processed
    ensures var turn := s.table.turns[t];
            && (turn.status == Open ==>
                   NextClaimAt(turn) == turn.dueAt && (Claimable(turn, now) <==> now >= turn.dueAt))
            && (turn.status == Processing ==>
                  && turn.processingAt.Some? && NextClaimAt(turn) == turn.processingAt.value + 900_000
                  && (Claimable(turn, now) <==> now > turn.processingAt.value + 900_000))
  {
    hide Numbered;
    assert TurnOk(cfg, s.clock, s.nextToken, s.table.turns[t]);
  }

  /** A job that comes back finds its untouched turn claimable. A job gives up an unfinished turn
      exactly when the time to come back passes between its two clock readings or, for a turn under
      a lease, is the very instant of its claim: recovery finds such a turn a millisecond later. */
  lemma JobsComeBackUnlessItIsTimeAlready(cfg: Config, s: State, t: TurnId, now: Time, later: Time)
    requires Valid(cfg, s) && t < |s.table.turns| && s.table.turns[t].status != Processed && now <= later
    ensures var turn, plan := s.table.turns[t], PlanFor(s.table, t, now, later);
            && (plan.Work? <==> Claimable(turn, now))
            && (plan.Recheck? ==>
                  Claimable(turn, later + plan.delay) && later + plan.delay == NextClaimAt(turn) + 1)
            && (plan.Drop? <==> (now < NextClaimAt(turn) || (turn.status == Processing && now == NextClaimAt(turn)))
                                && NextClaimAt(turn) <= later)
            && (plan.Drop? ==> Recoverable(turn, later + 1))
  {
    hide Valid;
    ClaimableFromNextClaimAt(cfg, s, t, now);
    ClaimableFromNextClaimAt(cfg, s, t, later + 1);
    RecoverableIffClaimable(cfg, s, t, later + 1);
    var plan := PlanFor(s.table, t, now, later);
    if plan.Recheck? {
      ClaimableFromNextClaimAt(cfg, s, t, later + plan.delay);
    }
  }

  const WORKED_ON := [DoReceive(0, 0, 0), DoSchedule(0, 0, 0), DoTick(4000), DoClaim(0),
                      DoTick(4000 + PROCESSING_LEASE_MS)]

  lemma FirstMessage()
    ensures Run(Config(4000, 12000), State(EMPTY_TABLE, 0, 0), WORKED_ON[..2])
         == State(Table([Turn(0, 0, 0, 0, 4000, 0, Open, None, None)], map[0 := Inbound(0, 0, Some(0), 0)]), 0, 0)
  {
    var cfg := Config(4000, 12000);
    BurstRuns(cfg, 1);
    assert Burst(1) == Burst(0) + [DoReceive(0, 0, 0), DoSchedule(0, 0, 0)] == WORKED_ON[..2];
    assert BurstTable(cfg, 1).turns == [Turn(0, 0, 0, 0, 4000, 0, Open, None, None)];
    assert BurstTable(cfg, 1).messages == map[0 := Inbound(0, 0, Some(0), 0)];
  }

  lemma WorkedOnUntilTheEnd()
    ensures Run(Config(4000, 12000), State(EMPTY_TABLE, 0, 0), WORKED_ON)
         == State(Table([Turn(0, 0, 0, 0, 4000, 0, Processing, Some(4000), Some(0))],
                        map[0 := Inbound(0, 0, Some(0), 0)]),
                  4000 + PROCESSING_LEASE_MS, 1)
  {
    var cfg, start := Config(4000, 12000), State(EMPTY_TABLE, 0, 0);
    FirstMessage();
    assert WORKED_ON == WORKED_ON[..2] + ([DoTick(4000), DoClaim(0)] + [DoTick(4000 + PROCESSING_LEASE_MS)]);
    RunInTwo(cfg, start, WORKED_ON[..2], [DoTick(4000), DoClaim(0)] + [DoTick(4000 + PROCESSING_LEASE_MS)]);
    var s := State(Table([Turn(0, 0, 0, 0, 4000, 0, Open, None, None)], map[0 := Inbound(0, 0, Some(0), 0)]), 0, 0);
    RunInTwo(cfg, s, [DoTick(4000), DoClaim(0)], [DoTick(4000 + PROCESSING_LEASE_MS)]);
    RunOfTwo(cfg, s, DoTick(4000), DoClaim(0));
    var claimed := Step(cfg, Step(cfg, s, DoTick(4000)), DoClaim(0));
    var end := Step(cfg, claimed, DoTick(4000 + PROCESSING_LEASE_MS));
    assert Run(cfg, claimed, [DoTick(4000 + PROCESSING_LEASE_MS)]) == Run(cfg, end, []);
  }

  /** Even with a single clock reading a job can give up a turn: a turn of one message that a worker has
      held, without finishing, to the very instant its lease ends. */
  lemma GivesUpAtTheEndOfALease()
    ensures var s := Run(Config(4000, 12000), State(EMPTY_TABLE, 0, 0), WORKED_ON);
            && |s.table.turns| == 1 && s.table.turns[0].status == Processing
            && s.clock == NextClaimAt(s.table.turns[0])
            && PlanFor(s.table, 0, s.clock, s.clock) == Drop
  {
    WorkedOnUntilTheEnd();
  }

  // ---------------------------------------------------------------- the tables, updated in place

  class InboundTurnStore {
    var turns: seq<Turn>
    var messages: map<MessageId, Inbound>

    constructor ()
      ensures Contents() == EMPTY_TABLE
    {
      turns, messages := [], map[];
    }

    function Contents(): Table
      reads this
    {
      Table(turns, messages)
    }

    method ScheduleMessage(cfg: Config, now: Time, m: MessageId, c: ConversationId, contact: ContactId)
      returns (result: Option<TurnId>)
      modifies this
      ensures match Schedule(old(Contents()), cfg, now, m, c, contact)
              case Scheduled(table, t) => Contents() == table && result == Some(t)
              case _ => Contents() == old(Contents()) && result == None
      ensures result == None <==>
                m !in old(messages) || old(messages)[m].conversation != c || old(messages)[m].contact != contact
      ensures result.Some? && old(messages)[m].turn.Some? ==>
                  Contents() == old(Contents()) && result == old(messages)[m].turn
      ensures result.Some? && old(messages)[m].turn.None? ==>
                  Placed(old(Contents()), Contents(), cfg, now, m, c, contact, result.value)
    {
      if m !in messages { return None; }
      var inbound := messages[m];
      if inbound.conversation != c || inbound.contact != contact { return None; }
      if inbound.turn.Some? { return inbound.turn; }
      SchedulingPlaces(Contents(), cfg, now, m, c, contact);
      ghost var before := Contents();
      hide Placed;
      var open := FindJoinable(Contents(), c, now, |turns|);
      var t: TurnId;
      if open.Some? {
        t := open.value;
        var dueAt := Min(now + cfg.debounce, turns[t].firstAt + cfg.maxWait);
        turns := turns[t := turns[t].(lastAt := now, dueAt := dueAt, lastMessage := m)];
      } else {
        t := |turns|;
        turns := turns + [Turn(c, contact, now, now, now + Min(cfg.debounce, cfg.maxWait), m, Open, None, None)];
      }
      messages := messages[m := inbound.(turn := Some(t), position := |MessagesOf(messages, t)|)];
      result := Some(t);
    }

    method ClaimTurn(t: TurnId, now: Time, token: Token) returns (claimed: Option<Turn>)
      modifies `turns
      ensures (Contents(), claimed.Some?) == Claim(old(Contents()), t, now, token)
      ensures claimed.Some? ==> t < |turns| && claimed.value == turns[t] && Holds(Contents(), t, token)
      ensures claimed.Some? <==>
                && t < |old(turns)| && old(turns)[t].dueAt <= now
                && (old(turns)[t].status == Open
                    || (old(turns)[t].status == Processing && old(turns)[t].processingAt.Some?
                        && old(turns)[t].processingAt.value + 900_000 < now))
      ensures turns == if claimed.Some?
                       then old(turns)[t := old(turns)[t].(
                              status := Processing, processingAt := Some(now), token := Some(token))]
                       else old(turns)
    {
      if t < |turns| && turns[t].dueAt <= now
         && (turns[t].status == Open
             || (turns[t].status == Processing && turns[t].processingAt.Some?
                 && turns[t].processingAt.value < now - PROCESSING_LEASE_MS))
      {
        turns := turns[t := turns[t].(status := Processing, processingAt := Some(now), token := Some(token))];
        return Some(turns[t]);
      }
      claimed := None;
    }

    method CompleteTurn(t: TurnId, token: Token)
      modifies `turns
      ensures Contents() == Complete(old(Contents()), t, token)
      ensures turns == if t < |old(turns)| && old(turns)[t].status == Processing && old(turns)[t].token == Some(token)
                       then old(turns)[t := old(turns)[t].(status := Processed, processingAt := None, token := None)]
                       else old(turns)
    {
      if Holds(Contents(), t, token) {
        turns := turns[t := turns[t].(status := Processed, processingAt := None, token := None)];
      }
    }

    method ReleaseTurn(t: TurnId, token: Token)
      modifies `turns
      ensures Contents() == Release(old(Contents()), t, token)
      ensures turns == if t < |old(turns)| && old(turns)[t].status == Processing && old(turns)[t].token == Some(token)
                       then old(turns)[t := old(turns)[t].(status := Open, processingAt := None, token := None)]
                       else old(turns)
    {
      if Holds(Contents(), t, token) {
        turns := turns[t := turns[t].(status := Open, processingAt := None, token := None)];
      }
    }
  }
}
