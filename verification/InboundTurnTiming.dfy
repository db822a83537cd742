/** When a turn is due, told from the times at which its messages were scheduled. */
module InboundTurnTiming {
  import opened Options
  import opened InboundTurns
  import Conversations

  type Time = Conversations.Time

  /** The step schedules a new message into the turn. */
  ghost predicate Adds(cfg: Config, s: State, a: Action, t: TurnId) {
    && a.DoSchedule? && a.m in s.table.messages && s.table.messages[a.m].turn == None
    && a.m in Step(cfg, s, a).table.messages && Step(cfg, s, a).table.messages[a.m].turn == Some(t)
  }

  /** The times at which a run schedules messages into a turn. */
  ghost function Times(cfg: Config, s: State, actions: seq<Action>, t: TurnId): seq<Time>
    decreases |actions|
  {
    if actions == [] then []
    else
      (if Adds(cfg, s, actions[0], t) then [s.clock] else []) + Times(cfg, Step(cfg, s, actions[0]), actions[1..], t)
  }

  lemma StepTimes(cfg: Config, s: State, a: Action, t: TurnId)
    ensures |s.table.turns| <= |Step(cfg, s, a).table.turns|
    ensures Adds(cfg, s, a, t) ==> t < |Step(cfg, s, a).table.turns|
    ensures t < |Step(cfg, s, a).table.turns| ==>
              var turn := Step(cfg, s, a).table.turns[t];
              if t < |s.table.turns| then
                && turn.firstAt == s.table.turns[t].firstAt
                && turn.lastAt == (if Adds(cfg, s, a, t) then s.clock else s.table.turns[t].lastAt)
              else
                Adds(cfg, s, a, t) && turn.firstAt == s.clock && turn.lastAt == s.clock
  {
    hide MessagesOf;
    hide FindJoinable;
  }

  function Last(times: seq<Time>, before: Time): Time {
    if times == [] then before else times[|times| - 1]
  }

  /** A turn remembers the times of its first and its last message. */
  lemma {:induction false} RunTimes(cfg: Config, s: State, actions: seq<Action>, t: TurnId)
    requires t < |Run(cfg, s, actions).table.turns|
    ensures var turn, times := Run(cfg, s, actions).table.turns[t], Times(cfg, s, actions, t);
            if t < |s.table.turns| then
              turn.firstAt == s.table.turns[t].firstAt && turn.lastAt == Last(times, s.table.turns[t].lastAt)
            else
              times != [] && turn.firstAt == times[0] && turn.lastAt == times[|times| - 1]
    decreases |actions|
  {
    hide Step;
    hide Adds;
    if actions != [] {
      var next := Step(cfg, s, actions[0]);
      StepTimes(cfg, s, actions[0], t);
      RunTimes(cfg, next, actions[1..], t);
      var rest := Times(cfg, next, actions[1..], t);
      if Adds(cfg, s, actions[0], t) {
        assert Times(cfg, s, actions, t) == [s.clock] + rest;
        assert rest != [] ==> ([s.clock] + rest)[|rest|] == rest[|rest| - 1];
      } else {
        assert Times(cfg, s, actions, t) == rest;
      }
    }
  }

  /** Over every run from the empty tables: an open turn can be claimed exactly from the moment on when
      the debounce has passed since its last message was scheduled, or the maximum wait since its
      first. */
  lemma OpenTurnIsDueIff(cfg: Config, clock: Time, actions: seq<Action>, t: TurnId, now: Time)
    requires var s := Run(cfg, State(EMPTY_TABLE, clock, 0), actions);
             t < |s.table.turns| && s.table.turns[t].status == Open
    ensures var s := Run(cfg, State(EMPTY_TABLE, clock, 0), actions);
            var times := Times(cfg, State(EMPTY_TABLE, clock, 0), actions, t);
            && times != []
            && (Claimable(s.table.turns[t], now) <==>
                  now >= times[|times| - 1] + cfg.debounce || now >= times[0] + cfg.maxWait)
  {
    var start := State(EMPTY_TABLE, clock, 0);
    assert Valid(cfg, start) by { EmptyIsValid(cfg, clock); }
    EveryRunIsValid(cfg, start, actions);
    RunTimes(cfg, start, actions, t);
    hide Run;
    hide Times;
    var s := Run(cfg, start, actions);
    assert TurnOk(cfg, s.clock, s.nextToken, s.table.turns[t]);
  }

  lemma EmptyIsValid(cfg: Config, clock: Time)
    ensures Valid(cfg, State(EMPTY_TABLE, clock, 0))
  {
    EveryReachableTableIsValid(cfg, clock, []);
  }

  /** In the program a scheduling reads the clock before it waits for its lock. A reading that has grown
      old in between can move the due time of the turn it joins back: exactly if the turn was due later
      than the debounce after the reading, which only a later reading can have brought about. */
  lemma OldReadingMovesDueBackIff(s: Table, cfg: Config, now: Time, m: MessageId,
          c: Conversations.ConversationId, contact: Conversations.ContactId, t: TurnId)
    requires m in s.messages && s.messages[m] == Inbound(c, contact, None, s.messages[m].position)
    requires FindJoinable(s, c, now, |s.turns|) == Some(t)
    requires s.turns[t].dueAt <= s.turns[t].lastAt + cfg.debounce
    requires s.turns[t].dueAt <= s.turns[t].firstAt + cfg.maxWait
    ensures var result := Schedule(s, cfg, now, m, c, contact);
            && result.Scheduled? && result.turn == t
            && (result.table.turns[t].dueAt < s.turns[t].dueAt <==> now + cfg.debounce < s.turns[t].dueAt)
    ensures now + cfg.debounce < s.turns[t].dueAt ==> now < s.turns[t].lastAt
  {
    SchedulingPlaces(s, cfg, now, m, c, contact);
    hide FindJoinable;
    hide MessagesOf;
  }
}
