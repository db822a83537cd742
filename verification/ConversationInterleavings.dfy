/** An inbound message resumes a closed conversation under another lock than all other operations on it. */
module ConversationInterleavings {
  import opened Options
  import opened Conversations

  /** A conversation found closed, and the status to resume it with. */
  datatype Resumption = Resumption(conversation: ConversationId, status: ConversationStatus)

  datatype World = World(db: Db, resumptions: seq<Resumption>)

  datatype Action =
    | DoOp(op: Op)
    | DoRead(latest: ConversationId)
    | DoWrite(i: nat)

  predicate IsClosed(db: Db, c: ConversationId) {
    c < |db.conversations| && db.conversations[c].status == Closed
  }

  function Decide(db: Db, c: ConversationId): Resumption {
    Resumption(c, if OpenHandoffOf(db, c).Some? then HandedOff else Active)
  }

  function Resume(db: Db, r: Resumption): Db {
    if r.conversation < |db.conversations| then SetConversation(db, r.conversation, r.status, None) else db
  }

  /** One step; a resumption writes without looking at the conversation again. */
  function Next(w: World, a: Action): World {
    match a
    case DoOp(op) => w.(db := Apply(w.db, op))
    case DoRead(latest) =>
      if IsClosed(w.db, latest) then w.(resumptions := w.resumptions + [Decide(w.db, latest)]) else w
    case DoWrite(i) => if i < |w.resumptions| then w.(db := Resume(w.db, w.resumptions[i])) else w
  }

  function Interleave(w: World, actions: seq<Action>): World
    decreases |actions|
  {
    if actions == [] then w else Interleave(Next(w, actions[0]), actions[1..])
  }

  /** With nothing in between, reading and writing are what the inbound message does in one go. */
  lemma ReadAndWriteAreGetOrCreate(w: World, contact: ContactId, latest: ConversationId)
    requires IsClosed(w.db, latest)
    ensures Next(Next(w, DoRead(latest)), DoWrite(|w.resumptions|)).db
         == Apply(w.db, DoGetOrCreate(contact, Some(latest)))
  {
  }

  /** The conversation has been handed over to a human since it was found closed. */
  predicate ComesTooLate(w: World, a: Action) {
    a.DoWrite? && a.i < |w.resumptions| && OpenHandoffOf(w.db, w.resumptions[a.i].conversation).Some?
  }

  predicate NoneComesTooLate(w: World, actions: seq<Action>)
    decreases |actions|
  {
    actions != [] ==> !ComesTooLate(w, actions[0]) && NoneComesTooLate(Next(w, actions[0]), actions[1..])
  }

  ghost predicate AlwaysValid(w: World, actions: seq<Action>)
    decreases |actions|
  {
    Valid(w.db) && (actions != [] ==> AlwaysValid(Next(w, actions[0]), actions[1..]))
  }

  /** While conversations and handoffs agree, whatever is found closed is held by nobody. */
  ghost predicate WorldOk(w: World) {
    Valid(w.db) && forall i :: 0 <= i < |w.resumptions| ==>
      w.resumptions[i].conversation < |w.db.conversations| && w.resumptions[i].status == Active
  }

  /** A resumption keeps conversations and handoffs in agreement exactly if no human holds the
      conversation by the time it writes. */
  lemma LateResumptionBreaks(w: World, i: nat)
    requires WorldOk(w) && i < |w.resumptions|
    ensures Valid(Next(w, DoWrite(i)).db) <==> !ComesTooLate(w, DoWrite(i))
  {
    var db, c := w.db, w.resumptions[i].conversation;
    var after := Next(w, DoWrite(i)).db;
    if OpenHandoffOf(db, c).Some? {
      assert OpenAt(after, c, OpenHandoffOf(db, c).value) && !ValidAt(after, c);
    } else {
      SetUnheldKeepsValid(db, c, Active, None);
    }
  }

  lemma ConversationsStay(db: Db, op: Op)
    ensures |db.conversations| <= |Apply(db, op).conversations|
  {
  }

  lemma NextKeepsWorldOk(w: World, a: Action)
    requires WorldOk(w) && !ComesTooLate(w, a)
    ensures WorldOk(Next(w, a))
  {
    hide Valid;
    match a
    case DoOp(op) =>
      ApplyKeepsValid(w.db, op);
      ConversationsStay(w.db, op);
      hide Apply;
    case DoRead(latest) =>
      if IsClosed(w.db, latest) {
        HeldIffHandedOff(w.db, latest);
      }
    case DoWrite(i) =>
      if i < |w.resumptions| {
        LateResumptionBreaks(w, i);
      }
  }

  /** Over every interleaving: conversations and handoffs agree in every state if and only if no
      resumption writes a conversation that has been handed over to a human since it was read. */
  lemma {:induction false} ValidIffNoneComesTooLate(w: World, actions: seq<Action>)
    requires WorldOk(w)
    ensures AlwaysValid(w, actions) <==> NoneComesTooLate(w, actions)
    decreases |actions|
  {
    hide ComesTooLate;
    hide Next;
    hide Valid;
    assert Valid(w.db);
    if actions != [] {
      if ComesTooLate(w, actions[0]) {
        TooLateBreaks(w, actions[0]);
      } else {
        NextKeepsWorldOk(w, actions[0]);
        ValidIffNoneComesTooLate(Next(w, actions[0]), actions[1..]);
      }
    }
  }

  lemma TooLateBreaks(w: World, a: Action)
    requires WorldOk(w) && ComesTooLate(w, a)
    ensures !Valid(Next(w, a).db)
  {
    LateResumptionBreaks(w, a.i);
  }

  // ---------------------------------------------------------------- a run to a late resumption

  const STORY := [
    DoOp(DoGetOrCreate(7, None)), DoOp(DoClose(0, 1)), DoRead(0), DoOp(DoReopen(0)), DoOp(DoCreate(0)),
    DoOp(DoAssign(0, 3)), DoWrite(0)]

  const FOUND := [Resumption(0, Active)]

  function Scene(status: ConversationStatus, closedAt: Option<Time>, handoffs: seq<Handoff>, found: seq<Resumption>)
    : World
  {
    World(Db([Conversation(7, status, closedAt)], handoffs), found)
  }

  const SCENES := [
    World(EMPTY, []),
    Scene(Active, None, [], []),
    Scene(Closed, Some(1), [], []),
    Scene(Closed, Some(1), [], FOUND),
    Scene(Active, None, [], FOUND),
    Scene(HandedOff, None, [Handoff(0, Pending, None)], FOUND),
    Scene(HandedOff, None, [Handoff(0, InProgress, Some(3))], FOUND),
    Scene(Active, None, [Handoff(0, InProgress, Some(3))], FOUND)]

  lemma StoryStep(i: nat)
    requires i < 7
    ensures Next(SCENES[i], STORY[i]) == SCENES[i + 1]
  {
    assert [Handoff(0, Pending, None)][0 := Handoff(0, InProgress, Some(3))] == [Handoff(0, InProgress, Some(3))];
  }

  lemma {:induction false} Along(worlds: seq<World>, actions: seq<Action>)
    requires |worlds| == |actions| + 1
    requires forall i :: 0 <= i < |actions| ==> Next(worlds[i], actions[i]) == worlds[i + 1]
    ensures Interleave(worlds[0], actions) == worlds[|actions|]
    decreases |actions|
  {
    hide Next;
    if actions != [] {
      forall i | 0 <= i < |actions[1..]| ensures Next(worlds[1..][i], actions[1..][i]) == worlds[1..][i + 1] {
        assert Next(worlds[i + 1], actions[i + 1]) == worlds[i + 2];
      }
      Along(worlds[1..], actions[1..]);
    }
  }

  /** An operator who has taken a conversation over may write no more: an inbound message that found it
      closed has made it active again. */
  lemma LateResumptionLocksTheOperatorOut()
    ensures var before, after := Interleave(World(EMPTY, []), STORY[..6]).db, Interleave(World(EMPTY, []), STORY).db;
            && AuthorizeReply(before, 0, 3, true).Done?
            && AuthorizeReply(after, 0, 3, true) == Refused(HandoffRequired)
            && OpenAt(after, 0, 0) && after.handoffs == before.handoffs
  {
    forall i | 0 <= i < 7 ensures Next(SCENES[i], STORY[i]) == SCENES[i + 1] {
      StoryStep(i);
    }
    hide Next;
    hide Interleave;
    Along(SCENES, STORY);
    Along(SCENES[..7], STORY[..6]);
    assert SCENES[6].db.handoffs[0].status == InProgress;
  }
}
