/** Conversations and their human handoffs: each write of the services as one transaction. */
module Conversations {
  // Row ids are positions: creating a row appends it, and no row is ever deleted.

  import opened Options

  type ConversationId = nat
  type HandoffId = nat
  type UserId = nat
  type ContactId = nat
  type Time = int

  datatype ConversationStatus = Active | Paused | HandedOff | Closed
  datatype HandoffStatus = Pending | Assigned | InProgress | Resolved | Cancelled
  datatype Resolution = ReturnToHermes | CloseConversation | KeepHuman

  datatype Conversation = Conversation(contact: ContactId, status: ConversationStatus, closedAt: Option<Time>)
  datatype Handoff = Handoff(conversation: ConversationId, status: HandoffStatus, agent: Option<UserId>)
  datatype Db = Db(conversations: seq<Conversation>, handoffs: seq<Handoff>)

  datatype Refusal =
    | NotFound | ConversationClosed | HandoffNotOpen | AssignedToAnother
    | OpenHandoff | HandoffRequired | TemplateRequired

  datatype Outcome = Done(db: Db) | Refused(why: Refusal)

  predicate IsOpen(s: HandoffStatus) {
    s in {Pending, Assigned, InProgress}
  }

  predicate OpenAt(db: Db, c: ConversationId, h: HandoffId) {
    h < |db.handoffs| && db.handoffs[h].conversation == c && IsOpen(db.handoffs[h].status)
  }

  /** The newest open handoff of a conversation. */
  function FindOpen(db: Db, c: ConversationId, upto: nat): (r: Option<HandoffId>)
    requires upto <= |db.handoffs|
    ensures r.Some? ==> r.value < upto && OpenAt(db, c, r.value)
    ensures r.None? ==> forall h :: 0 <= h < upto ==> !OpenAt(db, c, h)
  {
    if upto == 0 then None
    else if OpenAt(db, c, upto - 1) then Some(upto - 1)
    else FindOpen(db, c, upto - 1)
  }

  function OpenHandoffOf(db: Db, c: ConversationId): (r: Option<HandoffId>)
    ensures r.Some? ==> OpenAt(db, c, r.value)
    ensures r.None? ==> forall h :: !OpenAt(db, c, h)
  {
    FindOpen(db, c, |db.handoffs|)
  }

  function SetConversation(db: Db, c: ConversationId, status: ConversationStatus, closedAt: Option<Time>): Db
    requires c < |db.conversations|
  {
    db.(conversations := db.conversations[c := db.conversations[c].(status := status, closedAt := closedAt)])
  }

  function SetHandoff(db: Db, h: HandoffId, status: HandoffStatus, agent: Option<UserId>): Db
    requires h < |db.handoffs|
  {
    db.(handoffs := db.handoffs[h := db.handoffs[h].(status := status, agent := agent)])
  }

  function CreateHandoff(db: Db, c: ConversationId): Outcome {
    if c >= |db.conversations| then Refused(NotFound)
    else if db.conversations[c].status == Closed then Refused(ConversationClosed)
    else
      var held := SetConversation(db, c, HandedOff, None);
      if OpenHandoffOf(db, c).Some? then Done(held)
      else Done(held.(handoffs := held.handoffs + [Handoff(c, Pending, None)]))
  }

  function Assign(db: Db, h: HandoffId, agent: UserId): Outcome {
    if h >= |db.handoffs| then Refused(NotFound)
    else
      var handoff := db.handoffs[h];
      if !IsOpen(handoff.status) then Refused(HandoffNotOpen)
      else if handoff.agent.Some? && handoff.agent != Some(agent) then Refused(AssignedToAnother)
      else if handoff.status == InProgress && handoff.agent == Some(agent) then Done(db)
      else Done(SetHandoff(db, h, InProgress, Some(agent)))
  }

  function Resolve(db: Db, h: HandoffId, action: Resolution, actor: UserId, now: Time): Outcome {
    if h >= |db.handoffs| then Refused(NotFound)
    else
      var handoff := db.handoffs[h];
      if !IsOpen(handoff.status) then Refused(HandoffNotOpen)
      else if handoff.agent != Some(actor) then Refused(AssignedToAnother)
      else if handoff.conversation >= |db.conversations| then Refused(NotFound)
      else if action == KeepHuman then
        Done(SetConversation(SetHandoff(db, h, InProgress, Some(actor)), handoff.conversation, HandedOff, None))
      else
        var closing := action == CloseConversation;
        Done(SetHandoff(
               SetConversation(db, handoff.conversation, if closing then Closed else Active,
                               if closing then Some(now) else None),
               h, Resolved, Some(actor)))
  }

  function Close(db: Db, c: ConversationId, now: Time): Outcome {
    if c >= |db.conversations| then Refused(NotFound)
    else if OpenHandoffOf(db, c).Some? then Refused(OpenHandoff)
    else Done(SetConversation(db, c, Closed, Some(now)))
  }

  function Reopen(db: Db, c: ConversationId): Outcome {
    if c >= |db.conversations| then Refused(NotFound)
    else if OpenHandoffOf(db, c).Some? then Refused(OpenHandoff)
    else Done(SetConversation(db, c, Active, None))
  }

  /** `latest` is the contact's most recently updated conversation, if it has one. */
  function GetOrCreate(db: Db, contact: ContactId, latest: Option<ConversationId>): Outcome {
    if latest.Some? && latest.value >= |db.conversations| then Refused(NotFound)
    else if latest.Some? && db.conversations[latest.value].status in {Active, HandedOff} then Done(db)
    else if latest.Some? && db.conversations[latest.value].status == Closed then
      var status := if OpenHandoffOf(db, latest.value).Some? then HandedOff else Active;
      Done(SetConversation(db, latest.value, status, None))
    else Done(db.(conversations := db.conversations + [Conversation(contact, Active, None)]))
  }

  /** The authorisation of a human reply; it reads and changes nothing. */
  function AuthorizeReply(db: Db, c: ConversationId, user: UserId, windowOpen: bool): Outcome {
    if c >= |db.conversations| then Refused(NotFound)
    else if db.conversations[c].status == Closed then Refused(ConversationClosed)
    else if db.conversations[c].status != HandedOff
         || !(exists h | 0 <= h < |db.handoffs| ::
                db.handoffs[h].conversation == c && db.handoffs[h].status == InProgress
                      && db.handoffs[h].agent == Some(user))
    then Refused(HandoffRequired)
    else if !windowOpen then Refused(TemplateRequired)
    else Done(db)
  }

  datatype Op =
    | DoCreate(c: ConversationId)
    | DoAssign(h: HandoffId, agent: UserId)
    | DoResolve(h: HandoffId, action: Resolution, actor: UserId, now: Time)
    | DoClose(c: ConversationId, now: Time)
    | DoReopen(c: ConversationId)
    | DoGetOrCreate(contact: ContactId, latest: Option<ConversationId>)

  function Attempt(db: Db, op: Op): Outcome {
    match op
    case DoCreate(c) => CreateHandoff(db, c)
    case DoAssign(h, agent) => Assign(db, h, agent)
    case DoResolve(h, action, actor, now) => Resolve(db, h, action, actor, now)
    case DoClose(c, now) => Close(db, c, now)
    case DoReopen(c) => Reopen(db, c)
    case DoGetOrCreate(contact, latest) => GetOrCreate(db, contact, latest)
  }

  /** A refused operation rolls back. */
  function Apply(db: Db, op: Op): Db {
    match Attempt(db, op)
    case Done(after) => after
    case Refused(_) => db
  }

  function Exec(db: Db, ops: seq<Op>): Db
    decreases |ops|
  {
    if ops == [] then db else Exec(Apply(db, ops[0]), ops[1..])
  }

  // ---------------------------------------------------------------- the invariant

  const EMPTY := Db([], [])

  /** One conversation and its handoffs agree: at most one handoff is open, exactly then the
      conversation is handed off, and an open handoff has an operator once it is in progress. */
  ghost predicate ValidAt(db: Db, c: ConversationId)
    requires c < |db.conversations|
  {
    var row := db.conversations[c];
    && (forall h: nat :: OpenAt(db, c, h) ==>
          && row.status == HandedOff
          && (db.handoffs[h].agent.Some? <==> db.handoffs[h].status == InProgress))
    && (forall h: nat, k: nat :: OpenAt(db, c, h) && OpenAt(db, c, k) ==> h == k)
    && row.status != Paused
    && (row.status == HandedOff ==> OpenHandoffOf(db, c).Some?)
    && (row.closedAt.Some? <==> row.status == Closed)
  }

  ghost predicate Valid(db: Db) {
    && (forall h: nat :: h < |db.handoffs| ==> db.handoffs[h].conversation < |db.conversations|)
    && (forall c: nat :: c < |db.conversations| ==> ValidAt(db, c))
  }

  /** What an operation on one conversation may do to the others: nothing. */
  ghost predicate OnlyTouches(db: Db, after: Db, c: ConversationId) {
    && |after.conversations| == |db.conversations|
    && |after.handoffs| >= |db.handoffs|
    && (forall d: nat :: d < |db.conversations| && d != c ==> after.conversations[d] == db.conversations[d])
    && (forall h: nat :: h < |db.handoffs| && db.handoffs[h].conversation != c ==> after.handoffs[h] == db.handoffs[h])
    && (forall h: nat :: h < |db.handoffs| ==> after.handoffs[h].conversation == db.handoffs[h].conversation)
    && (forall h: nat :: |db.handoffs| <= h < |after.handoffs| ==> after.handoffs[h].conversation == c)
  }

  lemma SameHandoffsStayValid(db: Db, after: Db, d: ConversationId)
    requires d < |db.conversations| && d < |after.conversations| && ValidAt(db, d)
    requires after.conversations[d] == db.conversations[d]
    requires forall h: nat :: OpenAt(after, d, h) ==> OpenAt(db, d, h)
    requires forall h: nat :: OpenAt(db, d, h) ==> OpenAt(after, d, h) && after.handoffs[h] == db.handoffs[h]
    ensures ValidAt(after, d)
  {
    if db.conversations[d].status == HandedOff {
      assert OpenAt(after, d, OpenHandoffOf(db, d).value);
    }
  }

  lemma ValidElsewhere(db: Db, after: Db, c: ConversationId)
    requires Valid(db) && OnlyTouches(db, after, c) && c < |db.conversations| && ValidAt(after, c)
    ensures Valid(after)
  {
    forall d: nat | d < |after.conversations| ensures ValidAt(after, d) {
      if d != c {
        SameHandoffsStayValid(db, after, d);
      }
    }
  }

  lemma CreateKeepsValid(db: Db, c: ConversationId)
    requires Valid(db) && CreateHandoff(db, c).Done?
    ensures Valid(CreateHandoff(db, c).db)
  {
    var after := CreateHandoff(db, c).db;
    assert ValidAt(db, c);
    if OpenHandoffOf(db, c).Some? {
      assert OpenAt(after, c, OpenHandoffOf(db, c).value);
      assert forall h: nat :: OpenAt(after, c, h) <==> OpenAt(db, c, h);
    } else {
      assert OpenAt(after, c, |db.handoffs|);
      assert forall h: nat :: OpenAt(after, c, h) ==> OpenAt(db, c, h) || h == |db.handoffs|;
    }
    ValidElsewhere(db, after, c);
  }

  lemma AssignKeepsValid(db: Db, h: HandoffId, agent: UserId)
    requires Valid(db) && Assign(db, h, agent).Done?
    ensures Valid(Assign(db, h, agent).db)
  {
    var after, c := Assign(db, h, agent).db, db.handoffs[h].conversation;
    assert ValidAt(db, c) && OpenAt(db, c, h) && OpenAt(after, c, h);
    assert forall k: nat :: OpenAt(after, c, k) <==> OpenAt(db, c, k);
    ValidElsewhere(db, after, c);
  }

  lemma ResolveKeepsValid(db: Db, h: HandoffId, action: Resolution, actor: UserId, now: Time)
    requires Valid(db) && Resolve(db, h, action, actor, now).Done?
    ensures Valid(Resolve(db, h, action, actor, now).db)
  {
    var after, c := Resolve(db, h, action, actor, now).db, db.handoffs[h].conversation;
    assert ValidAt(db, c) && OpenAt(db, c, h);
    if action == KeepHuman {
      assert OpenAt(after, c, h);
      assert forall k: nat :: OpenAt(after, c, k) <==> OpenAt(db, c, k);
    } else {
      assert forall k: nat :: OpenAt(after, c, k) ==> OpenAt(db, c, k) && k != h;
    }
    ValidElsewhere(db, after, c);
  }

  lemma SetUnheldKeepsValid(db: Db, c: ConversationId, status: ConversationStatus, closedAt: Option<Time>)
    requires Valid(db) && c < |db.conversations| && OpenHandoffOf(db, c).None?
    requires status in {Active, Closed} && (closedAt.Some? <==> status == Closed)
    ensures Valid(SetConversation(db, c, status, closedAt))
  {
    var after := SetConversation(db, c, status, closedAt);
    assert ValidAt(db, c);
    assert forall h: nat :: OpenAt(after, c, h) <==> OpenAt(db, c, h);
    ValidElsewhere(db, after, c);
  }

  lemma AddConversationKeepsValid(db: Db, contact: ContactId)
    requires Valid(db)
    ensures Valid(db.(conversations := db.conversations + [Conversation(contact, Active, None)]))
  {
    var after := db.(conversations := db.conversations + [Conversation(contact, Active, None)]);
    forall c: nat | c < |after.conversations| ensures ValidAt(after, c) {
      assert forall h: nat :: OpenAt(after, c, h) <==> OpenAt(db, c, h);
      if c < |db.conversations| {
        SameHandoffsStayValid(db, after, c);
      }
    }
  }

  lemma HeldIffHandedOff(db: Db, c: ConversationId)
    requires Valid(db) && c < |db.conversations|
    ensures OpenHandoffOf(db, c).Some? <==> db.conversations[c].status == HandedOff
  {
    assert ValidAt(db, c);
  }

  lemma ApplyKeepsValid(db: Db, op: Op)
    requires Valid(db)
    ensures Valid(Apply(db, op))
  {
    if Attempt(db, op).Done? {
      match op
      case DoCreate(c) => CreateKeepsValid(db, c);
      case DoAssign(h, agent) => AssignKeepsValid(db, h, agent);
      case DoResolve(h, action, actor, now) => ResolveKeepsValid(db, h, action, actor, now);
      case DoClose(c, now) => SetUnheldKeepsValid(db, c, Closed, Some(now));
      case DoReopen(c) => SetUnheldKeepsValid(db, c, Active, None);
      case DoGetOrCreate(contact, latest) =>
        AddConversationKeepsValid(db, contact);
        if latest.Some? && db.conversations[latest.value].status == Closed {
          HeldIffHandedOff(db, latest.value);
          SetUnheldKeepsValid(db, latest.value, Active, None);
        }
    }
  }

  lemma {:induction false} EveryRunIsValid(db: Db, ops: seq<Op>)
    requires Valid(db)
    ensures Valid(Exec(db, ops))
    decreases |ops|
  {
    if ops != [] {
      ApplyKeepsValid(db, ops[0]);
      EveryRunIsValid(Apply(db, ops[0]), ops[1..]);
    }
  }

  // ---------------------------------------------------------------- what every run keeps

  ghost function OpenHandoffs(db: Db, c: ConversationId): set<HandoffId> {
    set h: nat | h < |db.handoffs| && OpenAt(db, c, h)
  }

  /** In every reachable state a conversation is handed off exactly when it has exactly one open
      handoff, has none otherwise, and carries a closing time exactly when it is closed. */
  lemma HandedOffIffOneOpenHandoff(ops: seq<Op>, c: ConversationId)
    requires c < |Exec(EMPTY, ops).conversations|
    ensures var db := Exec(EMPTY, ops);
            && (db.conversations[c].status == HandedOff <==> |OpenHandoffs(db, c)| == 1)
            && (db.conversations[c].status != HandedOff <==> OpenHandoffs(db, c) == {})
            && (db.conversations[c].closedAt.Some? <==> db.conversations[c].status == Closed)
  {
    EveryRunIsValid(EMPTY, ops);
    var db := Exec(EMPTY, ops);
    assert ValidAt(db, c);
    if db.conversations[c].status == HandedOff {
      var h := OpenHandoffOf(db, c).value;
      assert OpenHandoffs(db, c) == {h};
    }
  }

  /** An assigned handoff keeps its operator, and a handoff that is no longer open stays so, through
      every run. */
  lemma {:induction false} OperatorAndEndAreForever(db: Db, ops: seq<Op>, h: HandoffId)
    requires h < |db.handoffs|
    ensures h < |Exec(db, ops).handoffs|
    ensures db.handoffs[h].agent.Some? ==> Exec(db, ops).handoffs[h].agent == db.handoffs[h].agent
    ensures !IsOpen(db.handoffs[h].status) ==> Exec(db, ops).handoffs[h] == db.handoffs[h]
    decreases |ops|
  {
    if ops != [] {
      OperatorAndEndAreForever(Apply(db, ops[0]), ops[1..], h);
    }
  }

  /** A handoff stops being open in one way only: its own operator resolves it. */
  lemma OnlyTheOperatorResolves(db: Db, op: Op, h: HandoffId)
    requires h < |db.handoffs| && IsOpen(db.handoffs[h].status)
    ensures !IsOpen(Apply(db, op).handoffs[h].status)
       <==> (&& op.DoResolve? && op.h == h && op.action != KeepHuman
             && db.handoffs[h].agent == Some(op.actor)
             && db.handoffs[h].conversation < |db.conversations|)
  {
  }

  /** The operator of the open handoff `h` of the conversation `c` ends it with the action. */
  predicate Ends(db: Db, op: Op, c: ConversationId, action: Resolution) {
    && op.DoResolve? && op.action == action && OpenAt(db, c, op.h) && db.handoffs[op.h].agent == Some(op.actor)
  }

  predicate ClosesIt(db: Db, op: Op, c: ConversationId)
    requires c < |db.conversations|
  {
    Ends(db, op, c, CloseConversation) || (op.DoClose? && op.c == c && db.conversations[c].status != HandedOff)
  }

  predicate ActivatesIt(db: Db, op: Op, c: ConversationId)
    requires c < |db.conversations|
  {
    || Ends(db, op, c, ReturnToHermes)
    || (op.DoReopen? && op.c == c && db.conversations[c].status != HandedOff)
    || (op.DoGetOrCreate? && op.latest == Some(c) && db.conversations[c].status == Closed)
  }

  predicate HandsItOver(db: Db, op: Op, c: ConversationId)
    requires c < |db.conversations|
  {
    op.DoCreate? && op.c == c && db.conversations[c].status != Closed
  }

  /** A conversation becomes closed, active or handed off by these operations and by no others; it
      carries the time of its closing, and otherwise none. */
  lemma StatusAfter(db: Db, op: Op, c: ConversationId)
    requires Valid(db) && c < |db.conversations|
    ensures c < |Apply(db, op).conversations|
    ensures var row, after := db.conversations[c], Apply(db, op).conversations[c];
            && after.contact == row.contact
            && (ClosesIt(db, op, c) ==> after.status == Closed && after.closedAt == Some(op.now))
            && (ActivatesIt(db, op, c) ==> after.status == Active && after.closedAt == None)
            && (HandsItOver(db, op, c) ==> after.status == HandedOff && after.closedAt == None)
            && (!ClosesIt(db, op, c) && !ActivatesIt(db, op, c) && !HandsItOver(db, op, c) ==> after == row)
  {
    HeldIffHandedOff(db, c);
    assert ValidAt(db, c);
    hide Valid;
    if op.DoResolve? && op.h < |db.handoffs| && db.handoffs[op.h].conversation == c
      && IsOpen(db.handoffs[op.h].status) {
      assert OpenAt(db, c, op.h);
    }
  }

  /** An inbound message joins its contact's latest conversation while that is active or handed off, and
      resumes it when it is closed; without one, or if it is paused, a new conversation begins. */
  lemma InboundJoins(db: Db, contact: ContactId, latest: Option<ConversationId>)
    requires latest.Some? ==> latest.value < |db.conversations|
    ensures var after := Apply(db, DoGetOrCreate(contact, latest));
            && after.handoffs == db.handoffs
            && (latest.None? ==> after.conversations == db.conversations + [Conversation(contact, Active, None)])
            && (latest.Some? ==>
                  var row := db.conversations[latest.value];
                  && (row.status.Active? || row.status.HandedOff? ==> after == db)
                  && (row.status.Paused? ==>
                        after.conversations == db.conversations + [Conversation(contact, Active, None)])
                  && (row.status.Closed? ==>
                        after.conversations == db.conversations[latest.value := Conversation(row.contact,
                          if exists h: nat :: OpenAt(db, latest.value, h) then HandedOff else Active, None)]))
  {
  }

  /** An operator takes over an open handoff that is free or already his, and keeps or ends his own; a
      handoff is opened only for a conversation that has none, and waits for an operator. */
  lemma HandoffsAfter(db: Db, op: Op, h: HandoffId)
    requires Valid(db) && h < |Apply(db, op).handoffs|
    ensures var after := Apply(db, op).handoffs[h];
            if h >= |db.handoffs| then
              && h == |db.handoffs| && op.DoCreate? && op.c < |db.conversations|
              && db.conversations[op.c].status == Active && after == Handoff(op.c, Pending, None)
            else
              var row := db.handoffs[h];
              if op.DoAssign? && op.h == h && IsOpen(row.status) && row.agent in {None, Some(op.agent)} then
                after == Handoff(row.conversation, InProgress, Some(op.agent))
              else if op.DoResolve? && op.h == h && IsOpen(row.status) && row.agent == Some(op.actor) then
                after
                  == Handoff(row.conversation, if op.action == KeepHuman then InProgress else Resolved, Some(op.actor))
              else after == row
  {
    if op.DoCreate? && op.c < |db.conversations| {
      HeldIffHandedOff(db, op.c);
      assert ValidAt(db, op.c);
    }
  }

  /** A human reply is authorised exactly for the operator of the conversation's open handoff. */
  lemma ReplyIsForTheOperator(db: Db, c: ConversationId, user: UserId, windowOpen: bool)
    requires Valid(db) && c < |db.conversations|
    ensures AuthorizeReply(db, c, user, windowOpen).Done?
       <==> (&& windowOpen
             && OpenHandoffOf(db, c).Some?
             && db.handoffs[OpenHandoffOf(db, c).value].status == InProgress
             && db.handoffs[OpenHandoffOf(db, c).value].agent == Some(user))
  {
    if h: nat :| h < |db.handoffs| && db.handoffs[h].conversation == c
                 && db.handoffs[h].status == InProgress && db.handoffs[h].agent == Some(user) {
      assert OpenAt(db, c, h);
    }
    assert ValidAt(db, c);
  }

  /** Closing and reopening by hand are refused exactly while a human holds the conversation. */
  lemma HandedOffBlocksCloseAndReopen(db: Db, c: ConversationId, now: Time)
    requires Valid(db) && c < |db.conversations|
    ensures Close(db, c, now).Done? <==> db.conversations[c].status != HandedOff
    ensures Reopen(db, c).Done? <==> db.conversations[c].status != HandedOff
  {
    HeldIffHandedOff(db, c);
  }
}
