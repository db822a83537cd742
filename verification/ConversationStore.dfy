/** The conversation and handoff tables as the services update them, one transaction a method. */
module ConversationStores {
  import opened Options
  import opened Conversations

  /** A transaction either commits what the operation says or is refused and changes nothing. */
  ghost predicate Settled(before: Db, outcome: Outcome, after: Db, refusal: Option<Refusal>) {
    match outcome
    case Done(db) => after == db && refusal == None
    case Refused(why) => after == before && refusal == Some(why)
  }

  class ConversationStore {
    var conversations: seq<Conversation>
    var handoffs: seq<Handoff>

    ghost function Contents(): Db
      reads this
    {
      Db(conversations, handoffs)
    }

    ghost predicate Consistent()
      reads this
    {
      Valid(Contents())
    }

    constructor ()
      ensures Consistent() && Contents() == EMPTY
    {
      conversations, handoffs := [], [];
    }

    method WriteConversation(c: ConversationId, status: ConversationStatus, closedAt: Option<Time>)
      requires c < |conversations|
      modifies `conversations
      ensures Contents() == SetConversation(old(Contents()), c, status, closedAt)
    {
      conversations := conversations[c := conversations[c].(status := status, closedAt := closedAt)];
    }

    method WriteHandoff(h: HandoffId, status: HandoffStatus, agent: Option<UserId>)
      requires h < |handoffs|
      modifies `handoffs
      ensures Contents() == SetHandoff(old(Contents()), h, status, agent)
    {
      handoffs := handoffs[h := handoffs[h].(status := status, agent := agent)];
    }

    method Create(c: ConversationId) returns (refusal: Option<Refusal>)
      requires Consistent()
      modifies this
      ensures Consistent()
      ensures Settled(old(Contents()), CreateHandoff(old(Contents()), c), Contents(), refusal)
      ensures refusal == Some(NotFound) <==> c >= old(|conversations|)
      ensures refusal == Some(ConversationClosed) <==>
                  c < old(|conversations|) && old(conversations)[c].status == Closed
      ensures refusal == None ==>
                && conversations
                   == old(conversations)[c := Conversation(old(conversations)[c].contact, HandedOff, None)]
                && (if OpenHandoffOf(old(Contents()), c).Some? then handoffs == old(handoffs)
                    else handoffs == old(handoffs) + [Handoff(c, Pending, None)])
    {
      ghost var before := Contents();
      if c >= |conversations| { return Some(NotFound); }
      if conversations[c].status == Closed { return Some(ConversationClosed); }
      var existing := OpenHandoffOf(Db(conversations, handoffs), c);
      WriteConversation(c, HandedOff, None);
      if existing.None? {
        handoffs := handoffs + [Handoff(c, Pending, None)];
      }
      CreateKeepsValid(before, c);
      refusal := None;
    }

    method TakeOver(h: HandoffId, agent: UserId) returns (refusal: Option<Refusal>)
      requires Consistent()
      modifies this
      ensures Consistent()
      ensures Settled(old(Contents()), Assign(old(Contents()), h, agent), Contents(), refusal)
      ensures conversations == old(conversations)
      ensures refusal == Some(NotFound) <==> h >= old(|handoffs|)
      ensures refusal == Some(HandoffNotOpen) <==>
                h < old(|handoffs|) && (old(handoffs)[h].status.Resolved? || old(handoffs)[h].status.Cancelled?)
      ensures refusal == Some(AssignedToAnother) <==>
                && h < old(|handoffs|) && IsOpen(old(handoffs)[h].status) && old(handoffs)[h].agent.Some?
                && old(handoffs)[h].agent.value != agent
      ensures refusal == None ==>
                handoffs == old(handoffs)[h := Handoff(old(handoffs)[h].conversation, InProgress, Some(agent))]
    {
      ghost var before := Contents();
      if h >= |handoffs| { return Some(NotFound); }
      var handoff := handoffs[h];
      if !IsOpen(handoff.status) { return Some(HandoffNotOpen); }
      if handoff.agent.Some? && handoff.agent != Some(agent) { return Some(AssignedToAnother); }
      if !(handoff.status == InProgress && handoff.agent == Some(agent)) {
        WriteHandoff(h, InProgress, Some(agent));
      }
      AssignKeepsValid(before, h, agent);
      refusal := None;
    }

    method Finish(h: HandoffId, action: Resolution, actor: UserId, now: Time) returns (refusal: Option<Refusal>)
      requires Consistent()
      modifies this
      ensures Consistent()
      ensures Settled(old(Contents()), Resolve(old(Contents()), h, action, actor, now), Contents(), refusal)
      ensures refusal == Some(NotFound) <==> h >= old(|handoffs|)
      ensures refusal == Some(HandoffNotOpen) <==>
                h < old(|handoffs|) && (old(handoffs)[h].status.Resolved? || old(handoffs)[h].status.Cancelled?)
      ensures refusal == Some(AssignedToAnother) <==>
                h < old(|handoffs|) && IsOpen(old(handoffs)[h].status) && old(handoffs)[h].agent != Some(actor)
      ensures refusal == None ==>
                var c := old(handoffs)[h].conversation;
                && c < old(|conversations|)
                && handoffs
                   == old(handoffs)[h := Handoff(c, if action == KeepHuman then InProgress else Resolved, Some(actor))]
                && conversations == old(conversations)[c :=
                     match action
                     case CloseConversation => Conversation(old(conversations)[c].contact, Closed, Some(now))
                     case ReturnToHermes => Conversation(old(conversations)[c].contact, Active, None)
                     case KeepHuman => Conversation(old(conversations)[c].contact, HandedOff, None)]
    {
      ghost var before := Contents();
      if h >= |handoffs| { return Some(NotFound); }
      var handoff := handoffs[h];
      if !IsOpen(handoff.status) { return Some(HandoffNotOpen); }
      if handoff.agent != Some(actor) { return Some(AssignedToAnother); }
      assert ValidAt(before, handoff.conversation);
      if action == KeepHuman {
        WriteHandoff(h, InProgress, Some(actor));
        WriteConversation(handoff.conversation, HandedOff, None);
      } else {
        var status := if action == CloseConversation then Closed else Active;
        WriteConversation(handoff.conversation, status, if status == Closed then Some(now) else None);
        WriteHandoff(h, Resolved, Some(actor));
      }
      ResolveKeepsValid(before, h, action, actor, now);
      refusal := None;
    }

    method CloseByHand(c: ConversationId, now: Time) returns (refusal: Option<Refusal>)
      requires Consistent()
      modifies this
      ensures Consistent()
      ensures Settled(old(Contents()), Close(old(Contents()), c, now), Contents(), refusal)
      ensures handoffs == old(handoffs)
      ensures refusal == Some(NotFound) <==> c >= old(|conversations|)
      ensures refusal == Some(OpenHandoff) <==> c < old(|conversations|) && old(conversations)[c].status == HandedOff
      ensures refusal == None ==>
                conversations == old(conversations)[c := Conversation(old(conversations)[c].contact, Closed, Some(now))]
    {
      ghost var before := Contents();
      if c >= |conversations| { return Some(NotFound); }
      HeldIffHandedOff(before, c);
      if OpenHandoffOf(Db(conversations, handoffs), c).Some? { return Some(OpenHandoff); }
      WriteConversation(c, Closed, Some(now));
      SetUnheldKeepsValid(before, c, Closed, Some(now));
      refusal := None;
    }

    method ReopenByHand(c: ConversationId) returns (refusal: Option<Refusal>)
      requires Consistent()
      modifies this
      ensures Consistent()
      ensures Settled(old(Contents()), Reopen(old(Contents()), c), Contents(), refusal)
      ensures handoffs == old(handoffs)
      ensures refusal == Some(NotFound) <==> c >= old(|conversations|)
      ensures refusal == Some(OpenHandoff) <==> c < old(|conversations|) && old(conversations)[c].status == HandedOff
      ensures refusal == None ==>
                conversations == old(conversations)[c := Conversation(old(conversations)[c].contact, Active, None)]
    {
      ghost var before := Contents();
      if c >= |conversations| { return Some(NotFound); }
      HeldIffHandedOff(before, c);
      if OpenHandoffOf(Db(conversations, handoffs), c).Some? { return Some(OpenHandoff); }
      WriteConversation(c, Active, None);
      SetUnheldKeepsValid(before, c, Active, None);
      refusal := None;
    }

    /** Returns the conversation an inbound message of the contact belongs to: it is not closed. */
    method ForInbound(contact: ContactId, latest: Option<ConversationId>) returns (c: ConversationId)
      requires Consistent()
      requires latest.Some? ==> latest.value < |conversations|
      modifies this
      ensures Consistent()
      ensures GetOrCreate(old(Contents()), contact, latest) == Done(Contents())
      ensures c < |conversations| && conversations[c].status in {Active, HandedOff}
      ensures handoffs == old(handoffs)
      ensures latest == None ==>
                c == old(|conversations|) && conversations == old(conversations) + [Conversation(contact, Active, None)]
      ensures latest.Some? ==>
                && c == latest.value
                && (old(conversations)[c].status == Closed ==>
                      conversations
                        == old(conversations)[c := Conversation(old(conversations)[c].contact, Active, None)])
                && (old(conversations)[c].status != Closed ==> conversations == old(conversations))
    {
      ghost var before := Contents();
      ApplyKeepsValid(before, DoGetOrCreate(contact, latest));
      if latest.Some? {
        assert ValidAt(before, latest.value);
      }
      if latest.Some? {
        c := latest.value;
        if conversations[c].status in {Active, HandedOff} { return; }
        if conversations[c].status == Closed {
          var open := OpenHandoffOf(Db(conversations, handoffs), c);
          WriteConversation(c, if open.Some? then HandedOff else Active, None);
          return;
        }
      }
      c := |conversations|;
      conversations := conversations + [Conversation(contact, Active, None)];
    }

    /** Decides whether an operator may answer by hand; nothing is written. */
    method Authorize(c: ConversationId, user: UserId, windowOpen: bool) returns (refusal: Option<Refusal>)
      requires Consistent()
      ensures Settled(Contents(), AuthorizeReply(Contents(), c, user, windowOpen), Contents(), refusal)
      ensures refusal == Some(NotFound) <==> c >= |conversations|
      ensures refusal == Some(ConversationClosed) <==> c < |conversations| && conversations[c].status == Closed
      ensures refusal in {None, Some(TemplateRequired)} <==>
                c < |conversations| && conversations[c].status == HandedOff
                && exists h: nat :: h < |handoffs| && handoffs[h] == Handoff(c, InProgress, Some(user))
      ensures refusal == None ==> windowOpen
      ensures refusal == Some(TemplateRequired) ==> !windowOpen
    {
      if c >= |conversations| { return Some(NotFound); }
      if conversations[c].status == Closed { return Some(ConversationClosed); }
      var owner := exists h | 0 <= h < |handoffs| ::
        handoffs[h].conversation == c && handoffs[h].status == InProgress && handoffs[h].agent == Some(user);
      assert owner ==> exists h: nat :: h < |handoffs| && handoffs[h] == Handoff(c, InProgress, Some(user));
      if conversations[c].status != HandedOff || !owner { return Some(HandoffRequired); }
      if !windowOpen { return Some(TemplateRequired); }
      refusal := None;
    }
  }
}
