/** The automated delivery ledger: one row per message part, and the transactions on it. */
module Deliveries {
  import opened Options
  import opened Conversations

  type MessageId = nat
  type Token = nat
  type Wamid = nat
  type TurnId = nat

  const CLAIM_LEASE_MS := 60_000
  const REPLY_WINDOW_MS := 24 * 60 * 60 * 1000

  datatype Kind = HermesReply | SystemNotice

  /** The operation key: source message, kind and part index. */
  datatype Key = Key(source: MessageId, kind: Kind, part: nat)

  datatype Status = Prepared | Dispatching | Confirmed | Rejected | Ambiguous | Suppressed

  datatype Reason =
    | ContextMissing | TurnIdMismatch | NewerInbound | ContactOptedOut | HandoffActive
    | ConversationNotActive | TemplateRequiredByWindow
    | ClaimExpired | DeliveryInProgress | DeliveryMissing
    | MetaCode(code: nat) | UnexpectedFailure | StatusName(status: Status)

  datatype Row = Row(
    conversation: ConversationId, allowHandedOff: bool, turn: Option<TurnId>,
    status: Status, attempts: nat, token: Option<Token>, expiresAt: Option<Time>,
    outbound: Option<nat>, wamid: Option<Wamid>, reason: Option<Reason>)

  type Ledger = map<Key, Row>

  /** An outbound message written by a confirmation. */
  datatype Outbound = Outbound(key: Key, conversation: ConversationId, wamid: Wamid)

  predicate IsTerminal(s: Status) {
    s in {Confirmed, Rejected, Ambiguous, Suppressed}
  }

  // ---------------------------------------------------------------- prepare

  datatype Part = Part(index: nat, turn: Option<TurnId>)

  function NewRow(conversation: ConversationId, allowHandedOff: bool, turn: Option<TurnId>): Row {
    Row(conversation, allowHandedOff, turn, Prepared, 0, None, None, None, None, None)
  }

  /** An upsert with an empty update. */
  function PrepareRow(rows: Ledger, key: Key, row: Row): Ledger {
    if key in rows then rows else rows[key := row]
  }

  function PrepareParts(rows: Ledger, source: MessageId, kind: Kind, conversation: ConversationId,
                        allowHandedOff: bool, parts: seq<Part>): Ledger
    decreases |parts|
  {
    if parts == [] then rows
    else
      PrepareParts(
        PrepareRow(rows, Key(source, kind, parts[0].index), NewRow(conversation, allowHandedOff, parts[0].turn)),
        source, kind, conversation, allowHandedOff, parts[1..])
  }

  /** The part `i` is the first of the batch with its index. */
  ghost predicate FirstOfItsIndex(parts: seq<Part>, i: nat) {
    i < |parts| && forall j :: 0 <= j < i ==> parts[j].index != parts[i].index
  }

  ghost predicate KeyOfAPart(key: Key, source: MessageId, kind: Kind, parts: seq<Part>) {
    exists i :: 0 <= i < |parts| && key == Key(source, kind, parts[i].index)
  }

  /** Preparing keeps every row that is there as it is, whatever its status, and adds one row for each
      new operation key of its parts: the prepared row of the first part with that key. */
  lemma {:induction false} PreparingKeepsOneRowAKey(rows: Ledger, source: MessageId, kind: Kind,
        conversation: ConversationId, allowHandedOff: bool, parts: seq<Part>, key: Key)
    ensures var after := PrepareParts(rows, source, kind, conversation, allowHandedOff, parts);
            && (key in after <==> key in rows || KeyOfAPart(key, source, kind, parts))
            && (key in rows ==> after[key] == rows[key])
            && forall i: nat ::
                 FirstOfItsIndex(parts, i) && key == Key(source, kind, parts[i].index) && key !in rows ==>
                   key in after && after[key] == NewRow(conversation, allowHandedOff, parts[i].turn)
    decreases |parts|
  {
    if parts != [] {
      var rest := parts[1..];
      var row := NewRow(conversation, allowHandedOff, parts[0].turn);
      var next := PrepareRow(rows, Key(source, kind, parts[0].index), row);
      PreparingKeepsOneRowAKey(next, source, kind, conversation, allowHandedOff, rest, key);
      assert parts == [parts[0]] + rest;
      assert KeyOfAPart(key, source, kind, rest) ==> KeyOfAPart(key, source, kind, parts) by {
        if i :| 0 <= i < |rest| && key == Key(source, kind, rest[i].index) {
          assert key == Key(source, kind, parts[i + 1].index);
        }
      }
      forall i: nat | FirstOfItsIndex(parts, i) && i > 0 ensures FirstOfItsIndex(rest, i - 1) {
        assert forall j :: 0 <= j < i - 1 ==> rest[j] == parts[j + 1];
      }
      if i :| 0 <= i < |parts| && key == Key(source, kind, parts[i].index) && i > 0 {
        assert key == Key(source, kind, rest[i - 1].index);
      }
    }
  }

  /** Preparing a source's parts again changes nothing, whatever has become of their rows and whatever
      the second request says of its conversation. */
  lemma {:induction false} PreparingAgainChangesNothing(rows: Ledger, source: MessageId, kind: Kind,
        conversation: ConversationId, allowHandedOff: bool, parts: seq<Part>)
    requires forall i :: 0 <= i < |parts| ==> Key(source, kind, parts[i].index) in rows
    ensures PrepareParts(rows, source, kind, conversation, allowHandedOff, parts) == rows
    decreases |parts|
  {
    if parts != [] {
      assert forall i :: 0 <= i < |parts[1..]| ==> parts[1..][i] == parts[i + 1];
      PreparingAgainChangesNothing(rows, source, kind, conversation, allowHandedOff, parts[1..]);
    }
  }

  // ---------------------------------------------------------------- claim

  datatype Inbound = Inbound(id: MessageId, at: Time, turn: Option<TurnId>)

  /** What a claim reads beside the conversation and its handoffs. */
  datatype Context = Context(contactOptedOut: Option<bool>, source: Option<Inbound>, latest: Option<Inbound>)

  function Ineligibility(row: Row, conversation: Option<Conversation>, openHandoff: bool, ctx: Context, now: Time)
    : Option<Reason>
  {
    if conversation.None? || ctx.contactOptedOut.None? || ctx.source.None? || ctx.latest.None? then Some(ContextMissing)
    else
      var source, latest := ctx.source.value, ctx.latest.value;
      if row.turn.Some? && source.turn != row.turn then Some(TurnIdMismatch)
      else if row.turn.Some? && latest.turn.Some? && latest.turn != row.turn then Some(NewerInbound)
      else if latest.id != source.id && latest.at > source.at then Some(NewerInbound)
      else if ctx.contactOptedOut.value then Some(ContactOptedOut)
      else if openHandoff && !row.allowHandedOff then Some(HandoffActive)
      else if conversation.value.status != Active && !(row.allowHandedOff && conversation.value.status == HandedOff)
      then Some(ConversationNotActive)
      else if !(now < latest.at + REPLY_WINDOW_MS) then Some(TemplateRequiredByWindow)
      else None
  }

  datatype ClaimResult = Claimed | NotClaimed(terminal: bool, reason: Reason)

  function StatusReason(row: Row): Reason {
    if row.reason.Some? then row.reason.value
    else if row.status == Dispatching then DeliveryInProgress
    else StatusName(row.status)
  }

  function WhyNot(db: Db, row: Row, ctx: Context, now: Time): Option<Reason> {
    Ineligibility(
      row, if row.conversation < |db.conversations| then Some(db.conversations[row.conversation]) else None,
      OpenHandoffOf(db, row.conversation).Some?, ctx, now)
  }

  function Claim(rows: Ledger, db: Db, key: Key, ctx: Context, now: Time, token: Token): (Ledger, ClaimResult) {
    if key !in rows then (rows, NotClaimed(true, DeliveryMissing))
    else
      var row := rows[key];
      if row.status != Prepared then (rows, NotClaimed(IsTerminal(row.status), StatusReason(row)))
      else
        var why := WhyNot(db, row, ctx, now);
        if why.Some? then
          (if row.token.None? then rows[key := row.(status := Suppressed, reason := why)] else rows,
           NotClaimed(true, why.value))
        else if row.token.Some? then (rows, NotClaimed(false, DeliveryInProgress))
        else
          (rows[key := row.(status := Dispatching, token := Some(token),
                            expiresAt := Some(now + CLAIM_LEASE_MS), attempts := row.attempts + 1)],
           Claimed)
  }

  // ---------------------------------------------------------------- confirm, fail, sweep

  predicate OwnsClaim(rows: Ledger, key: Key, token: Token) {
    key in rows && rows[key].status == Dispatching && rows[key].token == Some(token)
  }

  function Confirm(rows: Ledger, outbox: seq<Outbound>, key: Key, token: Token, wamid: Wamid): (Ledger, seq<Outbound>)
    requires OwnsClaim(rows, key, token)
  {
    var row := rows[key];
    (rows[key := row.(status := Confirmed, outbound := Some(|outbox|), wamid := Some(wamid),
                      token := None, expiresAt := None, reason := None)],
     outbox + [Outbound(key, row.conversation, wamid)])
  }

  /** Why a dispatch failed: an answer of Meta, or anything else thrown on the way. */
  datatype Failure = RateLimited(code: nat) | DefinitiveRejection(code: nat) | AmbiguousOutcome(code: nat) | Unexpected

  function FailureStatus(failure: Failure): Status {
    match failure
    case RateLimited(_) => Prepared
    case DefinitiveRejection(_) => Rejected
    case AmbiguousOutcome(_) => Ambiguous
    case Unexpected => Ambiguous
  }

  function FailureReason(failure: Failure): Reason {
    if failure.Unexpected? then UnexpectedFailure else MetaCode(failure.code)
  }

  function Fail(rows: Ledger, key: Key, token: Token, failure: Failure): Ledger {
    if OwnsClaim(rows, key, token) then
      rows[key := rows[key].(status := FailureStatus(failure), reason := Some(FailureReason(failure)),
                             token := None, expiresAt := None)]
    else rows
  }

  predicate IsExpired(row: Row, now: Time) {
    row.status == Dispatching && row.expiresAt.Some? && row.expiresAt.value < now
  }

  function SweptRow(row: Row, now: Time): Row {
    if IsExpired(row, now) then
      row.(status := Ambiguous, reason := Some(ClaimExpired), token := None, expiresAt := None)
    else row
  }

  function Sweep(rows: Ledger, now: Time): Ledger {
    map k | k in rows :: SweptRow(rows[k], now)
  }

  ghost function ExpiredIn(rows: Ledger, now: Time): set<Key> {
    set k | k in rows && IsExpired(rows[k], now)
  }

  ghost function AmbiguousIn(rows: Ledger): set<Key> {
    set k | k in rows && rows[k].status == Ambiguous
  }

  /** A sweep makes exactly the claims AMBIGUOUS whose lease is over, and those beside the rows that
      were so before. */
  lemma SweptAreAmbiguous(rows: Ledger, now: Time)
    ensures AmbiguousIn(Sweep(rows, now)) == AmbiguousIn(rows) + ExpiredIn(rows, now)
    ensures |AmbiguousIn(Sweep(rows, now))| == |AmbiguousIn(rows)| + |ExpiredIn(rows, now)|
  {
    assert AmbiguousIn(rows) !! ExpiredIn(rows, now);
  }

  /** Two sweeps, in either order, are one at the later time: how often the sweeper comes round, and
      how many of its instances do, does not show in the rows. */
  lemma SweepsCompose(rows: Ledger, now: Time, later: Time)
    ensures Sweep(Sweep(rows, now), later) == Sweep(rows, if now <= later then later else now)
  {
  }

  // ---------------------------------------------------------------- what a claim means

  /** Everything that must hold at the moment a part is claimed for sending. */
  ghost predicate MayBeSent(row: Row, db: Db, ctx: Context, now: Time) {
    && ctx.source.Some? && ctx.latest.Some? && ctx.contactOptedOut == Some(false)
    && row.conversation < |db.conversations|
    && (row.turn.Some? ==> ctx.source.value.turn == row.turn && ctx.latest.value.turn in {None, row.turn})
    && (ctx.latest.value.id == ctx.source.value.id || ctx.latest.value.at <= ctx.source.value.at)
    && now < ctx.latest.value.at + 86_400_000
    && (row.allowHandedOff || forall h: nat :: !OpenAt(db, row.conversation, h))
    && (db.conversations[row.conversation].status == Active
        || (row.allowHandedOff && db.conversations[row.conversation].status == HandedOff))
  }

  /** A part is claimed exactly when it is prepared, nobody holds it and it may be sent; a prepared
      part that may not be sent is suppressed for good; any other part stays as it is. */
  lemma ClaimedIffItMayBeSent(rows: Ledger, db: Db, key: Key, ctx: Context, now: Time, token: Token)
    requires key in rows && (rows[key].token.Some? ==> rows[key].status == Dispatching)
    ensures var (after, result) := Claim(rows, db, key, ctx, now, token);
            && (result.Claimed? <==> rows[key].status == Prepared && MayBeSent(rows[key], db, ctx, now))
            && after.Keys == rows.Keys && (forall k :: k in rows && k != key ==> after[k] == rows[k])
            && (rows[key].status == Prepared && !MayBeSent(rows[key], db, ctx, now) ==>
                  result.terminal && after[key] == rows[key].(status := Suppressed, reason := Some(result.reason)))
            && (rows[key].status != Prepared ==>
                  after == rows && (result.terminal <==> rows[key].status != Dispatching))
  {
    assert OpenHandoffOf(db, rows[key].conversation).Some? <==> exists h: nat :: OpenAt(db, rows[key].conversation, h);
  }

  /** What a claim reports when it is refused holds: the reasons are true of what it has read, and those
      of an earlier check come first. */
  ghost predicate Holds(why: Reason, row: Row, db: Db, ctx: Context, now: Time) {
    match why
    case ContextMissing =>
      row.conversation >= |db.conversations| || ctx.contactOptedOut.None? || ctx.source.None? || ctx.latest.None?
    case TurnIdMismatch => row.turn.Some? && ctx.source.Some? && ctx.source.value.turn != row.turn
    case NewerInbound =>
      && ctx.source.Some? && ctx.latest.Some?
      && (|| (row.turn.Some? && ctx.latest.value.turn.Some? && ctx.latest.value.turn != row.turn)
          || (ctx.latest.value.id != ctx.source.value.id && ctx.latest.value.at > ctx.source.value.at))
    case ContactOptedOut => ctx.contactOptedOut == Some(true)
    case HandoffActive => !row.allowHandedOff && exists h: nat :: OpenAt(db, row.conversation, h)
    case ConversationNotActive =>
      && row.conversation < |db.conversations| && db.conversations[row.conversation].status != Active
      && (db.conversations[row.conversation].status == HandedOff ==> !row.allowHandedOff)
    case TemplateRequiredByWindow => ctx.latest.Some? && now >= ctx.latest.value.at + 86_400_000
    case _ => false
  }

  function Order(why: Reason): nat {
    match why
    case ContextMissing => 0
    case TurnIdMismatch => 1
    case NewerInbound => 2
    case ContactOptedOut => 3
    case HandoffActive => 4
    case ConversationNotActive => 5
    case TemplateRequiredByWindow => 6
    case _ => 7
  }

  lemma SuppressedForTheFirstReason(rows: Ledger, db: Db, key: Key, ctx: Context, now: Time, token: Token,
          other: Reason)
    requires key in rows && rows[key].status == Prepared && rows[key].token.None?
    ensures var (after, result) := Claim(rows, db, key, ctx, now, token);
            result.NotClaimed? ==>
              && after[key].status == Suppressed && after[key].reason == Some(result.reason)
              && Holds(result.reason, rows[key], db, ctx, now)
              && (Holds(other, rows[key], db, ctx, now) ==> Order(result.reason) <= Order(other))
  {
    assert OpenHandoffOf(db, rows[key].conversation).Some? <==> exists h: nat :: OpenAt(db, rows[key].conversation, h);
  }

  /** A part that is not prepared is reported with what has become of it. */
  lemma ReportedAsItStands(rows: Ledger, db: Db, key: Key, ctx: Context, now: Time, token: Token)
    requires key !in rows || rows[key].status != Prepared
    ensures var (after, result) := Claim(rows, db, key, ctx, now, token);
            && after == rows && result.NotClaimed?
            && (key !in rows ==> result.terminal && result.reason == DeliveryMissing)
            && (key in rows ==>
                  && (result.terminal <==> rows[key].status in {Confirmed, Rejected, Ambiguous, Suppressed})
                  && (rows[key].reason == Some(result.reason)
                      || (rows[key].reason == None && rows[key].status == Dispatching
                         && result.reason == DeliveryInProgress)
                      || (rows[key].reason == None && rows[key].status != Dispatching
                          && result.reason == StatusName(rows[key].status))))
  {
  }

  /** A failure settles the row of its claim's owner by what Meta answered: a 429 gives it back, only a
      definitive rejection rejects it, and whatever Meta may have accepted is ambiguous. */
  lemma FailureFollowsTheAnswer(rows: Ledger, key: Key, token: Token, failure: Failure)
    requires OwnsClaim(rows, key, token)
    ensures var row := Fail(rows, key, token, failure)[key];
            && (row.status == Prepared <==> failure.RateLimited?)
            && (row.status == Rejected <==> failure.DefinitiveRejection?)
            && (row.status == Ambiguous <==> failure.AmbiguousOutcome? || failure.Unexpected?)
            && (row.reason == Some(UnexpectedFailure) <==> failure.Unexpected?)
            && (!failure.Unexpected? ==> row.reason == Some(MetaCode(failure.code)))
            && row == rows[key].(status := row.status, reason := row.reason, token := None, expiresAt := None)
  {
  }

  /** The sweeper leaves a claim alone for exactly the sixty seconds of its lease. */
  lemma ClaimOutlivesSweepsForItsLease(rows: Ledger, db: Db, key: Key, ctx: Context, now: Time, token: Token,
          later: Time)
    requires Claim(rows, db, key, ctx, now, token).1.Claimed?
    ensures var claimed := Claim(rows, db, key, ctx, now, token).0;
            && OwnsClaim(claimed, key, token) && claimed[key].attempts == rows[key].attempts + 1
            && (OwnsClaim(Sweep(claimed, later), key, token) <==> later <= now + 60_000)
            && (later > now + 60_000 ==>
                  && Sweep(claimed, later)[key].status == Ambiguous
                  && Sweep(claimed, later)[key].reason == Some(ClaimExpired))
  {
    hide WhyNot;
  }
}
