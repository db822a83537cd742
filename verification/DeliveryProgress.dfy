/** Confirmed parts form a prefix, and a run reports exactly how many there are. */
module DeliveryProgress {
  import opened Options
  import opened Conversations
  import opened Deliveries
  import opened DeliveryRuns
  import opened DeliverySafety
  import opened DeliveryOrder
  import opened DeliveryProgressSteps

  // ---------------------------------------------------------------- every run

  ghost predicate Orderly(w: World) {
    Serial(w) && PartsOwned(w) && Guarded(w) && Progress(w)
  }

  lemma StepKeepsOrderly(w: World, a: Action)
    requires Orderly(w) && !Step(w, a).timedOut
    ensures Orderly(Step(w, a))
  {
    hide Step;
    hide Serial;
    hide PartsOwned;
    hide Guarded;
    hide RunsOnTrack;
    hide ConfirmedPrefix;
    hide OnlyBegunConfirmed;
    hide ResultsExact;
    StepKeepsSerial(w, a);
    StepKeepsPartsOwned(w, a);
    StepKeepsGuarded(w, a);
    StepKeepsRunsOnTrack(w, a);
    StepKeepsPrefix(w, a);
    StepKeepsOnlyBegunConfirmed(w, a);
    StepKeepsResultsExact(w, a);
  }

  lemma {:induction false} TimeoutsStay(w: World, actions: seq<Action>)
    ensures w.timedOut ==> Run(w, actions).timedOut
    decreases |actions|
  {
    hide Step;
    if actions != [] {
      StepShape(w, actions[0]);
      TimeoutsStay(Step(w, actions[0]), actions[1..]);
    }
  }

  lemma {:induction false} RunKeepsOrderly(w: World, actions: seq<Action>)
    requires Orderly(w) && !Run(w, actions).timedOut
    ensures Orderly(Run(w, actions))
    decreases |actions|
  {
    hide Step;
    hide Orderly;
    if actions != [] {
      TimeoutsStay(Step(w, actions[0]), actions[1..]);
      StepKeepsOrderly(w, actions[0]);
      RunKeepsOrderly(Step(w, actions[0]), actions[1..]);
    }
  }

  lemma InitialIsOrderly(w: World)
    requires Initial(w)
    ensures Orderly(w)
  {
    hide CallAllowed;
    hide EntryAllowed;
    hide OnTrack;
    hide AuthorizeReply;
    hide Valid;
  }

  lemma EveryReachableWorldIsOrderly(w: World, actions: seq<Action>)
    requires Initial(w) && !Run(w, actions).timedOut
    ensures Orderly(Run(w, actions))
  {
    InitialIsOrderly(w);
    hide *;
    RunKeepsOrderly(w, actions);
  }

  /** Between two calls of one run, which are for one conversation, no other run calls for that
      conversation: no part of another batch and no human reply. */
  lemma CallsAreSerialized(w: World, actions: seq<Action>, i: nat, j: nat, k: nat)
    requires Initial(w) && !Run(w, actions).timedOut
    requires i < j < k < |Run(w, actions).log| && Run(w, actions).log[i].run == Run(w, actions).log[k].run
    ensures var log := Run(w, actions).log;
            && log[i].conversation == log[k].conversation
            && (log[j].conversation == log[i].conversation ==> log[j].run == log[i].run)
  {
    EveryReachableWorldIsOrderly(w, actions);
  }

  /** At the moment of every automated call of a part that may not follow a handoff, its conversation
      is active and has no open handoff. */
  lemma NoBotMessageDuringHandoff(w: World, actions: seq<Action>, i: nat)
    requires Initial(w) && !Run(w, actions).timedOut && i < |Run(w, actions).log|
    ensures var e := Run(w, actions).log[i];
            e.author.Bot? && !e.author.allowHandedOff ==>
              && e.conversation < |e.db.conversations| && e.db.conversations[e.conversation].status == Active
              && forall h: nat :: !OpenAt(e.db, e.conversation, h)
  {
    EveryReachableWorldIsOrderly(w, actions);
    assert EntryAllowed(Run(w, actions).log[i]);
  }

  /** Every human reply is by the operator whose handoff of that conversation is in progress. */
  lemma EveryReplyIsForTheOperator(w: World, actions: seq<Action>, i: nat)
    requires Initial(w) && !Run(w, actions).timedOut && i < |Run(w, actions).log|
    ensures var e := Run(w, actions).log[i];
            e.author.Human? ==>
              && e.conversation < |e.db.conversations| && e.db.conversations[e.conversation].status == HandedOff
              && exists h: nat :: h < |e.db.handoffs| && e.db.handoffs[h]
                   == Handoff(e.conversation, InProgress, Some(e.author.user))
  {
    EveryReachableWorldIsOrderly(w, actions);
    var e := Run(w, actions).log[i];
    assert EntryAllowed(e);
    if e.author.Human? {
      var h :| 0 <= h < |e.db.handoffs| && e.db.handoffs[h].conversation == e.conversation
               && e.db.handoffs[h].status == InProgress && e.db.handoffs[h].agent == Some(e.author.user);
      assert e.db.handoffs[h] == Handoff(e.conversation, InProgress, Some(e.author.user));
    }
  }

  /** A source whose rows were all prepared before its first run has its confirmed parts in front. */
  lemma ConfirmedPartsAreAPrefix(w: World, actions: seq<Action>, k: Key, m: Key)
    requires Initial(w) && !Run(w, actions).timedOut
    requires var after := Run(w, actions);
             && k in after.rows && m in after.rows && k.source == m.source && k.source !in after.late
             && k.part < m.part && after.rows[m].status == Confirmed
    ensures Run(w, actions).rows[k].status == Confirmed
  {
    EveryReachableWorldIsOrderly(w, actions);
  }

  /** What a run reports as confirmed is the number of its source's rows then confirmed. */
  lemma ReportedConfirmationsAreExact(w: World, actions: seq<Action>, i: nat)
    requires Initial(w) && !Run(w, actions).timedOut && i < |Run(w, actions).results|
    ensures Run(w, actions).results[i].confirmed == Run(w, actions).results[i].actual
  {
    EveryReachableWorldIsOrderly(w, actions);
  }
}
