/** The durable inbox of webhook events: accepted once a key, claimed under leases by any number of
    scanners, and fenced against workers whose lease was taken over. */
module WebhookInbox {
  import opened Options

  type Key = nat
  type Token = nat
  type ScanId = nat
  type Time = int

  const CLAIM_LEASE_MS := 5 * 60_000
  const RETRY_MS := 5000
  const MAX_BACKOFF_MS := 60_000

  datatype InboxStatus = Pending | Processing | Failed | Completed

  datatype Row = Row(payload: nat, status: InboxStatus, lease: Option<Time>, token: Option<Token>, attempts: nat)

  type Inbox = map<Key, Row>

  datatype Event = Event(key: Key, payload: nat)

  // ---------------------------------------------------------------- accepting

  function NewRow(payload: nat): Row {
    Row(payload, Pending, None, None, 0)
  }

  function AcceptOne(rows: Inbox, e: Event): Inbox {
    if e.key in rows then rows else rows[e.key := NewRow(e.payload)]
  }

  /** `createMany` that skips duplicates: the first event with a key wins. */
  function Accept(rows: Inbox, events: seq<Event>): Inbox
    decreases |events|
  {
    if events == [] then rows else Accept(AcceptOne(rows, events[0]), events[1..])
  }

  // ---------------------------------------------------------------- claiming

  predicate LeaseOver(row: Row, now: Time) {
    row.lease.Some? && row.lease.value <= now
  }

  predicate Claimable(row: Row, now: Time) {
    row.status == Pending || (row.status in {Failed, Processing} && LeaseOver(row, now))
  }

  /** What a scan has read of one row, and the time it took at its start. */
  datatype Snapshot = Snapshot(key: Key, status: InboxStatus, attempts: nat, now: Time)

  predicate StillMatches(rows: Inbox, s: Snapshot) {
    && s.key in rows && rows[s.key].status == s.status
    && (s.status != Pending ==> LeaseOver(rows[s.key], s.now))
  }

  /** The conditional update; the lease runs from the clock at that moment, not from the scan's. */
  function Claim(rows: Inbox, s: Snapshot, clock: Time, token: Token): Inbox {
    if StillMatches(rows, s) then
      rows[s.key := rows[s.key].(status := Processing, token := Some(token), lease := Some(clock + CLAIM_LEASE_MS),
                                 attempts := rows[s.key].attempts + 1)]
    else rows
  }

  // ---------------------------------------------------------------- finishing

  datatype Work = Processed | Retry | Threw

  function Backoff(attempts: nat): Time {
    if RETRY_MS * (attempts + 1) < MAX_BACKOFF_MS then RETRY_MS * (attempts + 1) else MAX_BACKOFF_MS
  }

  /** `attempts` is what the scan had read, before its own claim counted one more. */
  function Finished(row: Row, work: Work, attempts: nat, clock: Time): Row {
    match work
    case Processed => row.(status := Completed, token := None, lease := None)
    case Retry => row.(status := Failed, token := None, lease := Some(clock + RETRY_MS))
    case Threw => row.(status := Failed, token := None, lease := Some(clock + Backoff(attempts)))
  }

  predicate Owns(rows: Inbox, key: Key, token: Token) {
    key in rows && rows[key].token == Some(token)
  }

  function Finish(rows: Inbox, key: Key, token: Token, work: Work, attempts: nat, clock: Time): Inbox {
    if Owns(rows, key, token) then rows[key := Finished(rows[key], work, attempts, clock)] else rows
  }

  // ---------------------------------------------------------------- runs

  datatype State = State(rows: Inbox, snapshots: map<ScanId, Snapshot>, clock: Time, nextToken: nat)

  datatype Action =
    | DoAccept(events: seq<Event>)
    | DoRead(scan: ScanId, key: Key, now: Time)
    | DoClaim(scan: ScanId)
    | DoFinish(key: Key, token: Token, work: Work, attempts: nat)
    | DoTick(clock: Time)

  function Step(s: State, a: Action): State {
    match a
    case DoAccept(events) => s.(rows := Accept(s.rows, events))
    case DoRead(scan, key, now) =>
      if key in s.rows && now <= s.clock && Claimable(s.rows[key], now) then
        s.(snapshots := s.snapshots[scan := Snapshot(key, s.rows[key].status, s.rows[key].attempts, now)])
      else s
    case DoClaim(scan) =>
      if scan in s.snapshots then
        s.(rows := Claim(s.rows, s.snapshots[scan], s.clock, s.nextToken), nextToken := s.nextToken + 1)
      else s
    case DoFinish(key, token, work, attempts) => s.(rows := Finish(s.rows, key, token, work, attempts, s.clock))
    case DoTick(clock) => if clock < s.clock then s else s.(clock := clock)
  }

  function Run(s: State, actions: seq<Action>): State
    decreases |actions|
  {
    if actions == [] then s else Run(Step(s, actions[0]), actions[1..])
  }

  // ---------------------------------------------------------------- one row a key

  /** Accepting leaves every row that is already there as it is, whatever its status, and adds one new
      row for each new key: the first of its events. */
  lemma {:induction false} AcceptKeepsOneRowAKey(rows: Inbox, events: seq<Event>, key: Key)
    ensures key in Accept(rows, events) <==> key in rows || exists i :: 0 <= i < |events| && events[i].key == key
    ensures key in rows ==> Accept(rows, events)[key] == rows[key]
    ensures forall i :: (0 <= i < |events| && events[i].key == key && key !in rows
                         && forall j :: 0 <= j < i ==> events[j].key != key)
                        ==> Accept(rows, events)[key] == Row(events[i].payload, Pending, None, None, 0)
    decreases |events|
  {
    if events != [] {
      var next := AcceptOne(rows, events[0]);
      AcceptKeepsOneRowAKey(next, events[1..], key);
      forall i | 0 <= i < |events| && events[i].key == key && key !in rows
                 && forall j :: 0 <= j < i ==> events[j].key != key
        ensures Accept(rows, events)[key] == NewRow(events[i].payload)
      {
        if i > 0 {
          assert events[1..][i - 1] == events[i];
          assert forall j :: 0 <= j < i - 1 ==> events[1..][j].key == events[j + 1].key;
        }
      }
      assert (exists i :: 0 <= i < |events[1..]| && events[1..][i].key == key)
          ==> exists i :: 0 <= i < |events| && events[i].key == key by {
        if i :| 0 <= i < |events[1..]| && events[1..][i].key == key {
          assert events[i + 1].key == key;
        }
      }
      if i :| 0 <= i < |events| && events[i].key == key && i > 0 {
        assert events[1..][i - 1].key == key;
      }
    }
  }

  /** A callback that Meta delivers again changes nothing, also after any processing in between. */
  lemma {:induction false} RedeliveryChangesNothing(rows: Inbox, events: seq<Event>)
    requires forall i :: 0 <= i < |events| ==> events[i].key in rows
    ensures Accept(rows, events) == rows
    decreases |events|
  {
    if events != [] {
      assert AcceptOne(rows, events[0]) == rows;
      assert forall i :: 0 <= i < |events[1..]| ==> events[1..][i] == events[i + 1];
      RedeliveryChangesNothing(rows, events[1..]);
    }
  }

  // ---------------------------------------------------------------- what every run keeps

  ghost predicate RowOk(row: Row, clock: Time, nextToken: nat) {
    && (row.status == Pending ==> row.lease.None? && row.attempts == 0)
    && (row.status in {Processing, Failed} <==> row.lease.Some?)
    && (row.status == Processing <==> row.token.Some?)
    && (row.token.Some? ==> row.token.value < nextToken)
  }

  ghost predicate Valid(s: State) {
    && (forall k :: k in s.rows ==> RowOk(s.rows[k], s.clock, s.nextToken))
    && (forall n :: n in s.snapshots ==> s.snapshots[n].now <= s.clock && s.snapshots[n].status != Completed)
  }

  lemma StepKeepsValid(s: State, a: Action)
    requires Valid(s)
    ensures Valid(Step(s, a))
  {
    if a.DoAccept? {
      forall k | k in Accept(s.rows, a.events) ensures RowOk(Accept(s.rows, a.events)[k], s.clock, s.nextToken) {
        AcceptKeepsOneRowAKey(s.rows, a.events, k);
        AcceptedRow(s.rows, a.events, k);
      }
    }
  }

  lemma {:induction false} AcceptedRow(rows: Inbox, events: seq<Event>, key: Key)
    requires key in Accept(rows, events)
    ensures if key in rows then Accept(rows, events)[key] == rows[key]
            else Accept(rows, events)[key] == NewRow(Accept(rows, events)[key].payload)
    decreases |events|
  {
    if events != [] {
      AcceptedRow(AcceptOne(rows, events[0]), events[1..], key);
    }
  }

  lemma {:induction false} EveryRunIsValid(s: State, actions: seq<Action>)
    requires Valid(s)
    ensures Valid(Run(s, actions))
    decreases |actions|
  {
    hide Valid;
    hide Step;
    if actions != [] {
      StepKeepsValid(s, actions[0]);
      EveryRunIsValid(Step(s, actions[0]), actions[1..]);
    }
  }

  /** What one step may do to one row. */
  lemma RowStep(s: State, a: Action, key: Key)
    requires Valid(s) && key in s.rows
    ensures key in Step(s, a).rows
    ensures s.rows[key].status == Completed ==> Step(s, a).rows[key] == s.rows[key]
    ensures var after := Step(s, a).rows[key];
            || after == s.rows[key]
            || (after.status == Completed && a.DoFinish? && Owns(s.rows, key, a.token))
            || (after.status in {Processing, Failed} && after.lease.Some? && after.lease.value > s.clock)
    ensures Step(s, a).clock >= s.clock && Step(s, a).nextToken >= s.nextToken
  {
    assert RowOk(s.rows[key], s.clock, s.nextToken);
    if a.DoAccept? {
      AcceptKeepsOneRowAKey(s.rows, a.events, key);
    }
  }

  /** A completed event is never touched again, and no event is ever lost. */
  lemma {:induction false} CompletedIsForever(s: State, actions: seq<Action>, key: Key)
    requires Valid(s) && key in s.rows
    ensures key in Run(s, actions).rows
    ensures s.rows[key].status == Completed ==> Run(s, actions).rows[key] == s.rows[key]
    decreases |actions|
  {
    hide Valid;
    hide Step;
    if actions != [] {
      RowStep(s, actions[0], key);
      StepKeepsValid(s, actions[0]);
      CompletedIsForever(Step(s, actions[0]), actions[1..], key);
    }
  }

  /** The row has been claimed at or after `time`: nothing read before then still matches it. */
  ghost predicate ClaimedSince(s: State, key: Key, time: Time) {
    && key in s.rows && s.rows[key].status != Pending
    && (s.rows[key].status in {Processing, Failed} ==> s.rows[key].lease.Some? && s.rows[key].lease.value > time)
  }

  lemma {:induction false} ClaimedSinceStays(s: State, actions: seq<Action>, key: Key, time: Time)
    requires Valid(s) && ClaimedSince(s, key, time) && time <= s.clock
    ensures ClaimedSince(Run(s, actions), key, time)
    decreases |actions|
  {
    hide Valid;
    hide Step;
    if actions != [] {
      RowStep(s, actions[0], key);
      StepKeepsValid(s, actions[0]);
      ClaimedSinceStays(Step(s, actions[0]), actions[1..], key, time);
    }
  }

  /** Of scans that have read the same event at most one wins it: once any claim of the event has
      succeeded, the claim of every reading made before then fails, now and ever after. */
  lemma AtMostOneScannerWins(s: State, winner: ScanId, loser: ScanId, actions: seq<Action>)
    requires Valid(s) && winner in s.snapshots && loser in s.snapshots
    requires s.snapshots[winner].key == s.snapshots[loser].key && StillMatches(s.rows, s.snapshots[winner])
    ensures !StillMatches(Run(Step(s, DoClaim(winner)), actions).rows, s.snapshots[loser])
  {
    var key, claimed := s.snapshots[winner].key, Step(s, DoClaim(winner));
    StepKeepsValid(s, DoClaim(winner));
    assert ClaimedSince(claimed, key, s.snapshots[loser].now);
    ClaimedSinceStays(claimed, actions, key, s.snapshots[loser].now);
  }

  /** The worker with `token` holds the event, or the time `until` which its lease runs has come. */
  ghost predicate HeldUntil(s: State, key: Key, token: Token, until: Time) {
    && key in s.rows
    && (s.clock >= until
        || (s.rows[key].status == Processing && s.rows[key].token == Some(token) && s.rows[key].lease == Some(until)))
  }

  lemma StepKeepsHold(s: State, a: Action, key: Key, token: Token, until: Time)
    requires Valid(s) && HeldUntil(s, key, token, until) && !(a.DoFinish? && a.key == key && a.token == token)
    ensures HeldUntil(Step(s, a), key, token, until)
  {
    if a.DoAccept? {
      AcceptKeepsOneRowAKey(s.rows, a.events, key);
    }
  }

  lemma {:induction false} RunKeepsHold(s: State, actions: seq<Action>, key: Key, token: Token, until: Time)
    requires Valid(s) && HeldUntil(s, key, token, until)
    requires forall i :: 0 <= i < |actions| ==>
               !(actions[i].DoFinish? && actions[i].key == key && actions[i].token == token)
    ensures HeldUntil(Run(s, actions), key, token, until)
    decreases |actions|
  {
    hide Valid;
    hide Step;
    hide HeldUntil;
    if actions != [] {
      StepKeepsHold(s, actions[0], key, token, until);
      StepKeepsValid(s, actions[0]);
      RunKeepsHold(Step(s, actions[0]), actions[1..], key, token, until);
    }
  }

  /** Nobody takes an event over before its worker's lease ends: after a successful claim, whatever the
      others do and as long as the worker has not finished, the event stays the worker's, and no other
      claim of it succeeds, until five minutes have passed. */
  lemma TakeoverOnlyAfterTheLease(s: State, winner: ScanId, actions: seq<Action>, other: ScanId)
    requires Valid(s) && winner in s.snapshots && StillMatches(s.rows, s.snapshots[winner])
    requires forall i :: 0 <= i < |actions| ==>
               !(actions[i].DoFinish? && actions[i].key == s.snapshots[winner].key && actions[i].token == s.nextToken)
    ensures var key, later := s.snapshots[winner].key, Run(Step(s, DoClaim(winner)), actions);
            later.clock < s.clock + 300_000 ==>
              && Owns(later.rows, key, s.nextToken)
              && (other in later.snapshots && later.snapshots[other].key == key ==>
                    !StillMatches(later.rows, later.snapshots[other]))
  {
    var key, claimed, until := s.snapshots[winner].key, Step(s, DoClaim(winner)), s.clock + CLAIM_LEASE_MS;
    StepKeepsValid(s, DoClaim(winner));
    EveryRunIsValid(claimed, actions);
    assert HeldUntil(claimed, key, s.nextToken, until);
    RunKeepsHold(claimed, actions, key, s.nextToken, until);
  }

  /** A worker whose lease was taken over, or that is done, can never change the event again. */
  lemma {:induction false} OldTokensAreFenced(s: State, actions: seq<Action>, key: Key, token: Token)
    requires token < s.nextToken && key in s.rows && !Owns(s.rows, key, token) && Valid(s)
    ensures !Owns(Run(s, actions).rows, key, token)
    ensures forall work, attempts, clock ::
              Finish(Run(s, actions).rows, key, token, work, attempts, clock) == Run(s, actions).rows
    decreases |actions|
  {
    hide Valid;
    if actions != [] {
      FreshTokensOnly(s, actions[0], key, token);
      StepKeepsValid(s, actions[0]);
      hide Step;
      OldTokensAreFenced(Step(s, actions[0]), actions[1..], key, token);
    }
  }

  lemma FreshTokensOnly(s: State, a: Action, key: Key, token: Token)
    requires Valid(s) && token < s.nextToken && key in s.rows && !Owns(s.rows, key, token)
    ensures key in Step(s, a).rows && !Owns(Step(s, a).rows, key, token) && Step(s, a).nextToken >= s.nextToken
  {
    RowStep(s, a, key);
    if a.DoAccept? {
      AcceptKeepsOneRowAKey(s.rows, a.events, key);
    }
  }

  /** No event gets stuck: an event that is not completed can be claimed at once while it is pending,
      and else from the end of its lease on; and a scan that has just read it wins it. */
  lemma NothingGetsStuck(s: State, key: Key, now: Time)
    requires Valid(s) && key in s.rows && s.rows[key].status != Completed
    ensures var row := s.rows[key];
            && (row.status == Pending ==> Claimable(row, now))
            && (row.status != Pending ==> row.lease.Some? && (Claimable(row, now) <==> now >= row.lease.value))
            && (Claimable(row, now) ==> StillMatches(s.rows, Snapshot(key, row.status, row.attempts, now)))
  {
    assert RowOk(s.rows[key], s.clock, s.nextToken);
  }

  /** The steps by which a scan completes an event that nobody else works on: wait for its lease, read
      it, claim it, finish it. */
  function Completing(s: State, key: Key): seq<Action>
    requires key in s.rows
  {
    var lease := s.rows[key].lease;
    var now := if lease.Some? && lease.value > s.clock then lease.value else s.clock;
    if s.rows[key].status == Completed then []
    else [DoTick(now), DoRead(0, key, now), DoClaim(0), DoFinish(key, s.nextToken, Processed, s.rows[key].attempts)]
  }

  lemma RunOfFour(s: State, a: Action, b: Action, c: Action, d: Action)
    ensures Run(s, [a, b, c, d]) == Step(Step(Step(Step(s, a), b), c), d)
  {
    hide Step;
    assert [a, b, c, d][1..] == [b, c, d] && [b, c, d][1..] == [c, d] && [c, d][1..] == [d] && [d][1..] == [];
    assert Run(Step(s, a), [b, c, d]) == Run(Step(Step(s, a), b), [c, d]);
    assert Run(Step(Step(Step(s, a), b), c), [d]) == Run(Step(Step(Step(Step(s, a), b), c), d), []);
  }

  /** Nothing can get an event stuck: from whatever state a run has led to, one more scan completes it,
      at once or, if it waits or another worker had it, when its lease has ended. */
  lemma EveryEventCanBeCompleted(s: State, actions: seq<Action>, key: Key)
    requires Valid(s) && key in Run(s, actions).rows
    ensures var reached := Run(s, actions);
            var end := Run(reached, Completing(reached, key));
            && key in end.rows && end.rows[key].status == Completed
            && (end.clock == reached.clock || reached.rows[key].lease == Some(end.clock))
  {
    EveryRunIsValid(s, actions);
    var reached := Run(s, actions);
    var row := reached.rows[key];
    if row.status != Completed {
      var now := if row.lease.Some? && row.lease.value > reached.clock then row.lease.value else reached.clock;
      NothingGetsStuck(reached, key, now);
      hide Run;
      var read := Step(Step(reached, DoTick(now)), DoRead(0, key, now));
      assert read.rows == reached.rows && read.snapshots[0] == Snapshot(key, row.status, row.attempts, now);
      var claimed := Step(read, DoClaim(0));
      assert Owns(claimed.rows, key, reached.nextToken);
      RunOfFour(reached, DoTick(now), DoRead(0, key, now), DoClaim(0),
                DoFinish(key, reached.nextToken, Processed, row.attempts));
    }
  }

  // ---------------------------------------------------------------- what work leaves behind

  /** The owner of the event reports that it has been processed. */
  predicate Completes(s: State, a: Action, key: Key) {
    a.DoFinish? && a.key == key && a.work == Processed && key in s.rows && s.rows[key].token == Some(a.token)
  }

  lemma StepCompletesIff(s: State, a: Action, key: Key)
    requires Valid(s) && key in s.rows && s.rows[key].status != Completed
    ensures key in Step(s, a).rows && (Step(s, a).rows[key].status == Completed <==> Completes(s, a, key))
  {
    assert RowOk(s.rows[key], s.clock, s.nextToken);
    RowStep(s, a, key);
  }

  /** An event that was not completed at first is so in the end exactly if at some step of the run the
      worker that owned it by then reported it as processed. */
  lemma {:induction false} CompletedIff(s: State, actions: seq<Action>, key: Key)
    requires Valid(s) && key in s.rows && s.rows[key].status != Completed
    ensures key in Run(s, actions).rows
    ensures Run(s, actions).rows[key].status == Completed <==>
              exists i :: 0 <= i < |actions| && Completes(Run(s, actions[..i]), actions[i], key)
    decreases |actions|
  {
    hide Valid;
    hide Step;
    hide Completes;
    if actions != [] {
      var next := Step(s, actions[0]);
      StepCompletesIff(s, actions[0], key);
      StepKeepsValid(s, actions[0]);
      CompletedIsForever(next, actions[1..], key);
      assert Run(s, actions[..0]) == s;
      if next.rows[key].status != Completed {
        CompletedIff(next, actions[1..], key);
        CompletesLater(s, actions, key);
      }
    }
  }

  lemma CompletesLater(s: State, actions: seq<Action>, key: Key)
    requires actions != [] && !Completes(s, actions[0], key)
    ensures (exists i :: 0 <= i < |actions| && Completes(Run(s, actions[..i]), actions[i], key))
            <==> exists i :: 0 <= i < |actions| - 1
                   && Completes(Run(Step(s, actions[0]), actions[1..][..i]), actions[1..][i], key)
  {
    hide Step;
    hide Completes;
    assert Run(s, actions[..0]) == s;
    forall i | 0 < i < |actions|
      ensures Run(s, actions[..i]) == Run(Step(s, actions[0]), actions[1..][..i - 1])
              && actions[i] == actions[1..][i - 1]
    {
      assert actions[..i][1..] == actions[1..][..i - 1];
    }
    if i :| 0 <= i < |actions| - 1 && Completes(Run(Step(s, actions[0]), actions[1..][..i]), actions[1..][i], key) {
      assert Completes(Run(s, actions[..i + 1]), actions[i + 1], key);
    }
  }

  /** An event that nobody owns is not touched before the end of its lease. */
  lemma {:induction false} WaitingRowsRest(s: State, actions: seq<Action>, key: Key, until: Time)
    requires Valid(s) && key in s.rows && s.rows[key].lease == Some(until) && s.rows[key].token == None
    ensures var end := Run(s, actions); end.clock < until ==> key in end.rows && end.rows[key] == s.rows[key]
    decreases |actions|
  {
    hide Valid;
    hide Step;
    if actions != [] && s.clock < until {
      var next := Step(s, actions[0]);
      StepLeavesWaiting(s, actions[0], key, until);
      StepKeepsValid(s, actions[0]);
      WaitingRowsRest(next, actions[1..], key, until);
    } else {
      ClockGoesOn(s, actions);
    }
  }

  lemma StepLeavesWaiting(s: State, a: Action, key: Key, until: Time)
    requires Valid(s) && key in s.rows && s.rows[key].lease == Some(until) && s.rows[key].token == None
    requires s.clock < until
    ensures key in Step(s, a).rows && Step(s, a).rows[key] == s.rows[key]
  {
    if a.DoAccept? {
      AcceptKeepsOneRowAKey(s.rows, a.events, key);
    }
  }

  lemma {:induction false} ClockGoesOn(s: State, actions: seq<Action>)
    ensures Run(s, actions).clock >= s.clock
    decreases |actions|
  {
    if actions != [] {
      ClockGoesOn(Step(s, actions[0]), actions[1..]);
    }
  }

  /** How long an event waits after work that did not complete it: five seconds where the work asked for
      it, and five more for each earlier attempt, up to a minute, where it failed. */
  predicate Delays(work: Work, attempts: nat, delay: Time) {
    || (work == Retry && delay == 5_000)
    || (work == Threw && delay <= 60_000
        && ((delay == 60_000 && attempts >= 11) || delay == 5_000 + 5_000 * attempts))
  }

  /** Work that is not completed leaves the event FAILED and counted; nobody touches it before its delay
      is over, through every run, and from then on it can be claimed again. */
  lemma FailuresWait(s: State, key: Key, token: Token, work: Work, attempts: nat, delay: Time, actions: seq<Action>)
    requires Valid(s) && Owns(s.rows, key, token) && Delays(work, attempts, delay)
    ensures var next := Step(s, DoFinish(key, token, work, attempts));
            && next.rows[key] == Row(s.rows[key].payload, Failed, Some(s.clock + delay), None, s.rows[key].attempts)
            && (forall now: Time :: Claimable(next.rows[key], now) <==> now >= s.clock + delay)
            && (Run(next, actions).clock < s.clock + delay ==>
                  key in Run(next, actions).rows && Run(next, actions).rows[key] == next.rows[key])
  {
    var next := Step(s, DoFinish(key, token, work, attempts));
    StepKeepsValid(s, DoFinish(key, token, work, attempts));
    WaitingRowsRest(next, actions, key, s.clock + delay);
  }

  // ---------------------------------------------------------------- the table, updated in place

  class InboxStore {
    var rows: Inbox

    constructor ()
      ensures rows == map[]
    {
      rows := map[];
    }

    method AcceptWebhook(events: seq<Event>)
      modifies this
      ensures rows == Accept(old(rows), events)
      ensures forall k :: k in old(rows) ==> k in rows && rows[k] == old(rows)[k]
    {
      var i := 0;
      assert events[0..] == events;
      while i < |events|
        invariant i <= |events|
        invariant Accept(rows, events[i..]) == Accept(old(rows), events)
      {
        assert events[i..][1..] == events[i + 1..];
        if events[i].key !in rows {
          rows := rows[events[i].key := NewRow(events[i].payload)];
        }
        i := i + 1;
      }
      forall k | k in old(rows) ensures k in rows && rows[k] == old(rows)[k] {
        AcceptKeepsOneRowAKey(old(rows), events, k);
      }
    }

    method TakeClaim(s: Snapshot, clock: Time, token: Token) returns (claimed: bool)
      modifies this
      ensures claimed <==> StillMatches(old(rows), s)
      ensures rows == Claim(old(rows), s, clock, token)
      ensures claimed <==>
                && s.key in old(rows) && old(rows)[s.key].status == s.status
                && (s.status == Pending
                    || (old(rows)[s.key].lease.Some? && old(rows)[s.key].lease.value <= s.now))
      ensures if claimed then
                rows == old(rows)[s.key := Row(old(rows)[s.key].payload, Processing, Some(clock + 300_000),
                                               Some(token), old(rows)[s.key].attempts + 1)]
              else rows == old(rows)
    {
      if s.key !in rows || rows[s.key].status != s.status { return false; }
      var row := rows[s.key];
      if s.status != Pending && !(row.lease.Some? && row.lease.value <= s.now) { return false; }
      rows := rows[s.key := row.(status := Processing, token := Some(token), lease := Some(clock + CLAIM_LEASE_MS),
                                 attempts := row.attempts + 1)];
      claimed := true;
    }

    method Settle(s: Snapshot, token: Token, work: Work, clock: Time)
      modifies this
      ensures rows == Finish(old(rows), s.key, token, work, s.attempts, clock)
      ensures s.key !in old(rows) || old(rows)[s.key].token != Some(token) ==> rows == old(rows)
      ensures s.key in old(rows) && old(rows)[s.key].token == Some(token) ==>
                var row := old(rows)[s.key];
                && rows.Keys == old(rows).Keys
                && (forall k :: k in rows && k != s.key ==> rows[k] == old(rows)[k])
                && (work == Processed ==> rows[s.key] == Row(row.payload, Completed, None, None, row.attempts))
                && forall delay :: Delays(work, s.attempts, delay) ==>
                     rows[s.key] == Row(row.payload, Failed, Some(clock + delay), None, row.attempts)
    {
      if s.key in rows && rows[s.key].token == Some(token) {
        var row := rows[s.key];
        match work
        case Processed => rows := rows[s.key := row.(status := Completed, token := None, lease := None)];
        case Retry => rows := rows[s.key := row.(status := Failed, token := None, lease := Some(clock + RETRY_MS))];
        case Threw =>
          var lease := clock + Backoff(s.attempts);
          rows := rows[s.key := row.(status := Failed, token := None, lease := Some(lease))];
      }
    }

    /** One turn of the scan's loop. */
    method WorkOff(s: Snapshot, clock: Time, token: Token, work: Work)
      modifies this
      ensures rows == if s.key in old(rows) then old(rows)[s.key := WorkedOff(old(rows), s, clock, token, work)]
                      else old(rows)
    {
      var claimed := TakeClaim(s, clock, token);
      if claimed {
        Settle(s, token, work, clock);
      }
    }

    /** One scan over what it has read, nobody else writing meanwhile: each event that still matches is
        claimed, worked on and settled; the other rows stay as they are. */
    method Scan(read: seq<Snapshot>, clock: Time, token: Token, works: seq<Work>)
      requires |works| == |read|
      requires forall i, j :: 0 <= i < j < |read| ==> read[i].key != read[j].key
      modifies this
      ensures rows.Keys == old(rows).Keys
      ensures forall k :: k in rows && (forall i :: 0 <= i < |read| ==> read[i].key != k) ==> rows[k] == old(rows)[k]
      ensures forall i :: 0 <= i < |read| && read[i].key in rows ==>
                rows[read[i].key] == WorkedOff(old(rows), read[i], clock, token + i, works[i])
    {
      hide WorkedOff;
      var i := 0;
      while i < |read|
        invariant i <= |read| && rows.Keys == old(rows).Keys
        invariant forall k :: k in rows && (forall j :: 0 <= j < i ==> read[j].key != k) ==> rows[k] == old(rows)[k]
        invariant forall j :: 0 <= j < i && read[j].key in rows ==>
                    rows[read[j].key] == WorkedOff(old(rows), read[j], clock, token + j, works[j])
      {
        assert read[i].key in rows ==> rows[read[i].key] == old(rows)[read[i].key];
        SameRowSameWork(old(rows), rows, read[i], clock, token + i, works[i]);
        WorkOff(read[i], clock, token + i, works[i]);
        i := i + 1;
      }
    }
  }

  /** The row a scan leaves behind: claimed and settled if it still matches, and else untouched. */
  function WorkedOff(rows: Inbox, s: Snapshot, clock: Time, token: Token, work: Work): Row
    requires s.key in rows
  {
    if StillMatches(rows, s) then Finished(Claim(rows, s, clock, token)[s.key], work, s.attempts, clock)
      else rows[s.key]
  }

  lemma SameRowSameWork(a: Inbox, b: Inbox, s: Snapshot, clock: Time, token: Token, work: Work)
    requires a.Keys == b.Keys && (s.key in a ==> a[s.key] == b[s.key])
    ensures s.key in a ==> WorkedOff(a, s, clock, token, work) == WorkedOff(b, s, clock, token, work)
  {
  }
}
