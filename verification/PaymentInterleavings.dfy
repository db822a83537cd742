/** The payment and lead operations with their reads and writes apart: which interleavings keep the
    promises, and the two that break them. */
module PaymentInterleavings {
  import opened Options
  import opened Payments
  import opened PaymentSafety

  // ---------------------------------------------------------------- reading before the lock is taken

  /** An update that has read and not yet written: its lead, and the stage that it read. */
  datatype Pending = Pending(lead: LeadId, change: Change, was: Stage)

  /** `maybeSendInstructions` reads the lead and the approved transfers, and `update` the lead and its
      open transfers, before they take their locks: here other operations may come in between. */
  datatype World = World(db: Db, decisions: seq<Decision>, updates: seq<Pending>)

  datatype Action =
    | DoOp(op: Op)
    | DoDecide(c: ConversationId, contact: ContactId, asks: bool, source: MessageId)
    | DoCommit(i: nat)
    | DoRead(lead: LeadId, change: Change)
    | DoWrite(i: nat)

  function Next(w: World, a: Action): World {
    match a
    case DoOp(op) => w.(db := Apply(w.db, op))
    case DoDecide(c, contact, asks, source) =>
      var d := Decide(w.db, c, contact, asks, source);
      if d.Some? then w.(decisions := w.decisions + [d.value]) else w
    case DoCommit(i) => if i < |w.decisions| then w.(db := Settle(w.db, Commit(w.db, w.decisions[i]))) else w
    case DoRead(l, change) =>
      if Objection(w.db, l, change).Some? then w
      else w.(updates := w.updates + [Pending(l, change, w.db.leads[l].stage)])
    case DoWrite(i) =>
      if i < |w.updates| then
        w.(db := Settle(w.db, Write(w.db, w.updates[i].lead, w.updates[i].change, w.updates[i].was)))
      else w
  }

  function Interleave(w: World, actions: seq<Action>): World
    decreases |actions|
  {
    if actions == [] then w else Interleave(Next(w, actions[0]), actions[1..])
  }

  /** The commit finds its lead won meanwhile. */
  predicate CommitsTooLate(w: World, a: Action) {
    && a.DoCommit? && a.i < |w.decisions| && w.decisions[a.i].lead < |w.db.leads|
    && w.db.leads[w.decisions[a.i].lead].stage == Won && !SourceUsed(w.db, w.decisions[a.i].source)
  }

  /** What has happened since the update read goes against its write: the lead is won and the update sets
      another stage or, not winning it anew, another deal; or it moves the stage against a transfer. */
  predicate Overtaken(db: Db, u: Pending)
    requires u.lead < |db.leads|
  {
    var lead, stage := db.leads[u.lead], u.change.stage;
    if lead.stage == Won then
      !Wins(u.was, u.change) && (stage !in {None, Some(Won)} || DealFields(Changed(lead, u.change)) != DealFields(lead))
    else
      stage.Some?
      && (|| (stage.value == Won && HasOpen(db, u.lead))
          || (stage.value != PaymentReview && HasInReview(db, u.lead))
          || (IsPromotable(stage.value) && HasTransfer(db, u.lead)))
  }

  function DealFields(lead: Lead): (Option<nat>, Option<string>, Option<string>) {
    (lead.amount, lead.currency, lead.reference)
  }

  predicate WritesTooLate(w: World, a: Action) {
    a.DoWrite? && a.i < |w.updates| && w.updates[a.i].lead < |w.db.leads| && Overtaken(w.db, w.updates[a.i])
  }

  predicate ComesTooLate(w: World, a: Action) {
    CommitsTooLate(w, a) || WritesTooLate(w, a)
  }

  predicate NothingComesTooLate(w: World, actions: seq<Action>)
    decreases |actions|
  {
    actions != [] ==> !ComesTooLate(w, actions[0]) && NothingComesTooLate(Next(w, actions[0]), actions[1..])
  }

  ghost predicate StaysWon(db: Db, after: Db) {
    forall l: nat :: l < |db.leads| && db.leads[l].stage == Won ==> l < |after.leads| && after.leads[l].stage == Won
  }

  /** Every state is sound and no step takes a lead out of won. */
  ghost predicate Safe(w: World, actions: seq<Action>)
    decreases |actions|
  {
    && Sound(w.db)
    && (actions != [] ==> StaysWon(w.db, Next(w, actions[0]).db) && Safe(Next(w, actions[0]), actions[1..]))
  }

  ghost predicate DecisionOk(db: Db, d: Decision) {
    && d.lead < |db.leads| && db.leads[d.lead].conversation == Some(d.conversation)
    && db.leads[d.lead].contact == d.contact
  }

  ghost predicate UpdateOk(db: Db, u: Pending) {
    && u.lead < |db.leads|
    && (u.was == Won ==> db.leads[u.lead].stage == Won)
    && (Wins(u.was, u.change) ==>
          var lead := Changed(db.leads[u.lead], u.change);
          lead.amount.Some? && lead.currency.Some? && lead.reference.Some?)
  }

  ghost predicate WorldOk(w: World) {
    && Sound(w.db)
    && (forall i: nat :: i < |w.decisions| ==> DecisionOk(w.db, w.decisions[i]))
    && (forall i: nat :: i < |w.updates| ==> UpdateOk(w.db, w.updates[i]))
  }

  /** What a step may do to one lead, for what is pending to stay in order. */
  ghost predicate Continues(lead: Lead, after: Lead) {
    && after.contact == lead.contact && (lead.conversation.Some? ==> after.conversation == lead.conversation)
    && KeepsDealFields(lead, after)
  }

  ghost predicate AllContinue(db: Db, after: Db) {
    |db.leads| <= |after.leads| && forall l: nat :: l < |db.leads| ==> Continues(db.leads[l], after.leads[l])
  }

  lemma PendingStaysOk(w: World, after: Db)
    requires WorldOk(w) && Sound(after) && AllContinue(w.db, after) && StaysWon(w.db, after)
    ensures WorldOk(w.(db := after))
  {
    hide Sound;
    hide KeepsDealFields;
    forall i: nat | i < |w.decisions| ensures DecisionOk(after, w.decisions[i]) {
      assert DecisionOk(w.db, w.decisions[i]);
    }
    forall i: nat | i < |w.updates| ensures UpdateOk(after, w.updates[i]) {
      UpdateStaysOk(w.db, after, w.updates[i]);
    }
  }

  lemma UpdateStaysOk(db: Db, after: Db, u: Pending)
    requires UpdateOk(db, u) && AllContinue(db, after) && StaysWon(db, after)
    ensures UpdateOk(after, u)
  {
    assert Continues(db.leads[u.lead], after.leads[u.lead]);
  }

  lemma CommitContinues(db: Db, d: Decision)
    ensures AllContinue(db, Settle(db, Commit(db, d)))
  {
    hide OpenOf;
  }

  /** A late commit takes its lead out of won; any other commit keeps everything. */
  lemma LateCommitLeavesWon(w: World, i: nat)
    requires WorldOk(w) && i < |w.decisions|
    ensures CommitsTooLate(w, DoCommit(i)) ==>
              && !StaysWon(w.db, Next(w, DoCommit(i)).db) && !Sound(Next(w, DoCommit(i)).db)
              && Next(w, DoCommit(i)).db.leads[w.decisions[i].lead].stage == PaymentPending
    ensures !CommitsTooLate(w, DoCommit(i)) ==>
              Sound(Next(w, DoCommit(i)).db) && StaysWon(w.db, Next(w, DoCommit(i)).db)
  {
    var d := w.decisions[i];
    assert DecisionOk(w.db, d);
    if w.db.leads[d.lead].stage == Won {
      NothingOpenOnceWon(w.db, d);
      assert LeadOk(w.db.home, w.db.leads[d.lead]);
      if CommitsTooLate(w, DoCommit(i)) {
        assert !LeadOk(w.db.home, Next(w, DoCommit(i)).db.leads[d.lead]);
      }
    } else {
      CommitKeepsSound(w.db, d);
    }
  }

  lemma NothingOpenOnceWon(db: Db, d: Decision)
    requires Sound(db) && DecisionOk(db, d) && db.leads[d.lead].stage == Won
    ensures OpenOf(db, d.conversation, None).None?
  {
    forall t: nat | OpenAt(db, t) ensures db.transfers[t].conversation != d.conversation {
      assert TransferOk(db, t);
      assert db.transfers[t].lead != d.lead;
    }
  }

  lemma WriteContinues(db: Db, u: Pending)
    ensures AllContinue(db, Settle(db, Write(db, u.lead, u.change, u.was)))
  {
  }

  /** The lead that a write leaves, if it is not refused. */
  function Written(lead: Lead, u: Pending): Lead
    requires Wins(u.was, u.change) ==>
               var after := Changed(lead, u.change); after.amount.Some? && after.currency.Some? && after.reference.Some?
  {
    var after := Changed(lead, u.change);
    if Wins(u.was, u.change) then after.(milestone := Some(DealOf(after))) else after
  }

  lemma WriteIsOneLead(db: Db, u: Pending)
    requires UpdateOk(db, u)
    ensures var lead, after := db.leads[u.lead], Settle(db, Write(db, u.lead, u.change, u.was));
            if Wins(u.was, u.change) && lead.milestone.Some? && lead.milestone != Some(DealOf(Changed(lead, u.change)))
            then after == db
            else after == db.(leads := db.leads[u.lead := Written(lead, u)])
  {
    var changed := Changed(db.leads[u.lead], u.change);
    assert db.leads[u.lead := changed][u.lead := Written(db.leads[u.lead], u)]
           == db.leads[u.lead := Written(db.leads[u.lead], u)];
  }

  /** A write that is not overtaken leaves a lead in order, and one that all its transfers fit. */
  lemma TimelyWriteFits(db: Db, u: Pending)
    requires Sound(db) && UpdateOk(db, u) && !Overtaken(db, u)
    requires Settle(db, Write(db, u.lead, u.change, u.was)) != db
    ensures LeadOk(db.home, Written(db.leads[u.lead], u))
            && FitsTheOthers(db, u.lead, Written(db.leads[u.lead], u), None)
    ensures db.leads[u.lead].stage == Won ==> Written(db.leads[u.lead], u).stage == Won
  {
    WriteIsOneLead(db, u);
    var lead, after := db.leads[u.lead], Written(db.leads[u.lead], u);
    assert LeadOk(db.home, lead);
    hide Write;
    forall t: nat | t < |db.transfers| && db.transfers[t].lead == u.lead ensures Fits(db.transfers[t], after) {
      assert TransferOk(db, t);
    }
  }

  /** A write that is overtaken leaves a lead that is not in order, or that a transfer does not fit. */
  lemma OvertakenWriteBreaks(db: Db, u: Pending)
    requires Sound(db) && UpdateOk(db, u) && Overtaken(db, u)
    ensures !Sound(Settle(db, Write(db, u.lead, u.change, u.was)))
  {
    WriteIsOneLead(db, u);
    var lead, after := db.leads[u.lead], Settle(db, Write(db, u.lead, u.change, u.was));
    assert LeadOk(db.home, lead);
    hide Write;
    if lead.stage == Won {
      assert !LeadOk(after.home, after.leads[u.lead]);
    } else {
      var t: nat :| t < |db.transfers| && db.transfers[t].lead == u.lead
              && ((u.change.stage == Some(Won) && IsOpen(db.transfers[t].status))
                  || (u.change.stage.value != PaymentReview && InReview(db.transfers[t].status))
                  || IsPromotable(u.change.stage.value));
      assert !TransferOk(after, t);
    }
  }

  /** An update that writes on what it read before is harmless exactly if it is not overtaken. */
  lemma LateWriteBreaks(w: World, i: nat)
    requires WorldOk(w) && i < |w.updates|
    ensures Sound(Next(w, DoWrite(i)).db) <==> !WritesTooLate(w, DoWrite(i))
    ensures !WritesTooLate(w, DoWrite(i)) ==> StaysWon(w.db, Next(w, DoWrite(i)).db)
  {
    var u := w.updates[i];
    assert UpdateOk(w.db, u);
    var after := Next(w, DoWrite(i)).db;
    hide Overtaken;
    if Overtaken(w.db, u) {
      OvertakenWriteBreaks(w.db, u);
    } else if after != w.db {
      TimelyWriteFits(w.db, u);
      WriteIsOneLead(w.db, u);
      WriteLeadKeepsSound(w.db, u.lead, Written(w.db.leads[u.lead], u));
    }
  }

  lemma OpContinues(db: Db, op: Op)
    requires Sound(db)
    ensures AllContinue(db, Apply(db, op)) && StaysWon(db, Apply(db, op))
  {
    hide Sound;
    hide Apply;
    hide KeepsDealFields;
    if |db.leads| > 0 {
      ApplyStep(db, op, |db.leads| - 1);
    }
    forall l: nat | l < |db.leads| ensures l < |Apply(db, op).leads| && LeadStep(db.leads[l], Apply(db, op).leads[l]) {
      ApplyStep(db, op, l);
    }
  }

  lemma DecidedOk(db: Db, c: ConversationId, contact: ContactId, asks: bool, source: MessageId)
    requires Decide(db, c, contact, asks, source).Some?
    ensures DecisionOk(db, Decide(db, c, contact, asks, source).value)
  {
  }

  lemma ReadOk(db: Db, l: LeadId, change: Change)
    requires Objection(db, l, change).None?
    ensures UpdateOk(db, Pending(l, change, db.leads[l].stage))
  {
    if Wins(db.leads[l].stage, change) {
      HasDealIsComplete(Changed(db.leads[l], change));
    }
  }

  lemma NextKeepsWorldOk(w: World, a: Action)
    requires WorldOk(w) && !ComesTooLate(w, a)
    ensures WorldOk(Next(w, a)) && StaysWon(w.db, Next(w, a).db)
  {
    hide Sound;
    hide Apply;
    hide Commit;
    hide Write;
    hide Decide;
    hide Objection;
    hide DecisionOk;
    hide UpdateOk;
    hide CommitsTooLate;
    hide WritesTooLate;
    hide AllContinue;
    match a
    case DoOp(op) =>
      ApplyKeepsSound(w.db, op);
      OpContinues(w.db, op);
      PendingStaysOk(w, Apply(w.db, op));
    case DoDecide(c, contact, asks, source) =>
      if Decide(w.db, c, contact, asks, source).Some? {
        DecidedOk(w.db, c, contact, asks, source);
      }
    case DoCommit(i) =>
      if i < |w.decisions| {
        LateCommitLeavesWon(w, i);
        CommitContinues(w.db, w.decisions[i]);
        PendingStaysOk(w, Next(w, a).db);
      }
    case DoRead(l, change) =>
      if Objection(w.db, l, change).None? {
        ReadOk(w.db, l, change);
      }
    case DoWrite(i) =>
      if i < |w.updates| {
        LateWriteBreaks(w, i);
        WriteContinues(w.db, w.updates[i]);
        PendingStaysOk(w, Next(w, a).db);
      }
  }

  lemma TooLateBreaks(w: World, a: Action)
    requires WorldOk(w) && ComesTooLate(w, a)
    ensures !Sound(Next(w, a).db)
  {
    hide Sound;
    if CommitsTooLate(w, a) {
      LateCommitLeavesWon(w, a.i);
    } else {
      LateWriteBreaks(w, a.i);
    }
  }

  /** Asking the same guards once more, under one lock with the write, would refuse every update that is
      overtaken. */
  lemma AskingAgainWouldRefuse(db: Db, u: Pending)
    requires Sound(db) && u.lead < |db.leads| && Overtaken(db, u)
    ensures Objection(db, u.lead, u.change).Some?
  {
    var lead, stage := db.leads[u.lead], u.change.stage;
    assert LeadOk(db.home, lead);
    hide HasDeal;
    if lead.stage != Won && HasTransfer(db, u.lead) {
      var t: nat :| t < |db.transfers| && db.transfers[t].lead == u.lead
              && (HasInReview(db, u.lead) ==> InReview(db.transfers[t].status));
      assert TransferOk(db, t);
    }
  }

  /** Over every interleaving, with reads and writes of both services apart: all states are sound and
      won is never left if and only if no commit finds its lead won since its decision, and no update
      is overtaken between its reads and its write. */
  lemma {:induction false} SafeIffNothingComesTooLate(w: World, actions: seq<Action>)
    requires WorldOk(w)
    ensures Safe(w, actions) <==> NothingComesTooLate(w, actions)
    decreases |actions|
  {
    hide ComesTooLate;
    hide Next;
    hide Sound;
    hide StaysWon;
    assert Sound(w.db);
    if actions != [] {
      if ComesTooLate(w, actions[0]) {
        TooLateBreaks(w, actions[0]);
      } else {
        NextKeepsWorldOk(w, actions[0]);
        SafeIffNothingComesTooLate(Next(w, actions[0]), actions[1..]);
      }
    }
  }

  predicate NoCommitComesTooLate(w: World, actions: seq<Action>)
    decreases |actions|
  {
    actions != [] ==> !CommitsTooLate(w, actions[0]) && NoCommitComesTooLate(Next(w, actions[0]), actions[1..])
  }

  /** While updates read and write in one go, late commits are the only danger. */
  lemma SafeIffNoCommitComesTooLate(w: World, actions: seq<Action>)
    requires WorldOk(w) && forall i :: 0 <= i < |actions| ==> !actions[i].DoWrite?
    ensures Safe(w, actions) <==> NoCommitComesTooLate(w, actions)
  {
    SafeIffNothingComesTooLate(w, actions);
    OnlyCommitsComeTooLate(w, actions);
  }

  lemma {:induction false} OnlyCommitsComeTooLate(w: World, actions: seq<Action>)
    requires forall i :: 0 <= i < |actions| ==> !actions[i].DoWrite?
    ensures NothingComesTooLate(w, actions) <==> NoCommitComesTooLate(w, actions)
    decreases |actions|
  {
    hide Next;
    if actions != [] {
      assert !actions[0].DoWrite?;
      OnlyCommitsComeTooLate(Next(w, actions[0]), actions[1..]);
    }
  }

  /** Whatever comes too late, transfers still only move forward, and what has been approved or rejected
      stays so. */
  lemma {:induction false} TransfersStillMoveForward(w: World, actions: seq<Action>)
    ensures AllForward(w.db.transfers, Interleave(w, actions).db.transfers)
    decreases |actions|
  {
    hide Next;
    if actions != [] {
      NextForward(w, actions[0]);
      TransfersStillMoveForward(Next(w, actions[0]), actions[1..]);
      ForwardTwice(w.db.transfers, Next(w, actions[0]).db.transfers, Interleave(w, actions).db.transfers);
    }
  }

  lemma NextForward(w: World, a: Action)
    ensures AllForward(w.db.transfers, Next(w, a).db.transfers)
  {
    hide Apply;
    hide Commit;
    if a.DoOp? {
      ApplyForward(w.db, a.op);
    } else if a.DoCommit? && a.i < |w.decisions| {
      CommitForward(w.db, w.decisions[a.i]);
    }
  }

  // The failure, as a run: two messages of one conversation ask for the bank data and both are
  // decided; the first transfer is paid and approved before the second decision commits.

  const STORY := [
    DoOp(DoFindOrCreate(7)), DoOp(DoQualify(7, true)),
    DoOp(DoUpdate(0, Change(None, None, None, None, None, Some(100)))),
    DoDecide(1, 7, true, 10), DoDecide(1, 7, true, 11), DoCommit(0),
    DoOp(DoProof(1, 7, 20)), DoOp(DoApprove(0, ProofReceived, 20, "C")),
    DoCommit(1),
    DoOp(DoProof(1, 7, 21)), DoOp(DoApprove(1, ProofReceived, 21, "C"))]

  const ASKING := NewLead(7, Some(1), Qualified).(proposal := 100)
  const PAID := ASKING.(stage := Won, amount := Some(100), currency := Some("USD"), reference := Some("C"),
                        milestone := Some(Deal(100, "USD", "C")))
  const FIRST := Transfer(0, 1, 7, 100, "USD", InstructionsPrepared, 10, None, None)
  const FIRST_APPROVED := FIRST.(status := Approved, reviewedProof := Some(20))
  const SECOND := FIRST.(source := 11)
  const SECOND_APPROVED := SECOND.(status := Approved, reviewedProof := Some(21))

  function Scene(lead: Lead, transfers: seq<Transfer>, proofs: map<MessageId, Proof>, decided: nat,
          updates: seq<Pending>)
    : World
  {
    var decisions := [Decision(0, 1, 7, 100, "USD", 10), Decision(0, 1, 7, 100, "USD", 11)];
    World(Db(map[7 := 1], [lead], transfers, proofs), if decided <= 2 then decisions[..decided] else decisions, updates)
  }

  lemma SetUp()
    ensures Interleave(World(Db(map[7 := 1], [], [], map[]), [], []), STORY[..3]) == Scene(ASKING, [], map[], 0, [])
  {
    var start := World(Db(map[7 := 1], [], [], map[]), [], []);
    var w1 := Next(start, STORY[0]);
    assert w1 == Scene(NewLead(7, Some(1), New), [], map[], 0, []);
    var w2 := Next(w1, STORY[1]);
    assert w2 == Scene(NewLead(7, Some(1), Qualified), [], map[], 0, []);
    assert Next(w2, STORY[2]) == Scene(ASKING, [], map[], 0, []);
    Three(start, STORY[0], STORY[1], STORY[2]);
    assert STORY[..3] == [STORY[0], STORY[1], STORY[2]];
  }

  lemma Three(w: World, a: Action, b: Action, c: Action)
    ensures Interleave(w, [a, b, c]) == Next(Next(Next(w, a), b), c)
    ensures Interleave(w, [a, b]) == Next(Next(w, a), b)
    ensures Interleave(w, [a]) == Next(w, a)
  {
    hide Next;
    assert [a, b, c][1..] == [b, c] && [b, c][1..] == [c] && [a, b][1..] == [b];
    assert Interleave(Next(w, a), [b, c]) == Interleave(Next(Next(w, a), b), [c]);
    assert Interleave(Next(w, a), [b]) == Interleave(Next(Next(w, a), b), []);
    assert Interleave(Next(Next(w, a), b), [c]) == Interleave(Next(Next(Next(w, a), b), c), []);
  }

  lemma BothDecided(updates: seq<Pending>)
    ensures Interleave(Scene(ASKING, [], map[], 0, updates), STORY[3..6])
         == Scene(ASKING.(stage := PaymentPending), [FIRST], map[], 2, updates)
  {
    var w3 := Scene(ASKING, [], map[], 0, updates);
    var w4 := Next(w3, STORY[3]);
    assert w4 == Scene(ASKING, [], map[], 1, updates);
    var w5 := Next(w4, STORY[4]);
    assert w5 == Scene(ASKING, [], map[], 2, updates);
    assert Next(w5, STORY[5]) == Scene(ASKING.(stage := PaymentPending), [FIRST], map[], 2, updates);
    Three(w3, STORY[3], STORY[4], STORY[5]);
    assert STORY[3..6] == [STORY[3], STORY[4], STORY[5]];
  }

  lemma FirstProofArrives(updates: seq<Pending>)
    ensures Next(Scene(ASKING.(stage := PaymentPending), [FIRST], map[], 2, updates), STORY[6])
         == Scene(ASKING.(stage := PaymentReview), [FIRST.(status := ProofReceived)], map[20 := Proof(0, 1)], 2,
                  updates)
  {
    var w6 := Scene(ASKING.(stage := PaymentPending), [FIRST], map[], 2, updates);
    assert OpenOf(w6.db, 1, Some(7)) == Some(0);
  }

  lemma FirstIsApproved(updates: seq<Pending>)
    ensures Interleave(Scene(ASKING.(stage := PaymentPending), [FIRST], map[], 2, updates), STORY[6..8])
         == Scene(PAID, [FIRST_APPROVED], map[20 := Proof(0, 1)], 2, updates)
  {
    var w6 := Scene(ASKING.(stage := PaymentPending), [FIRST], map[], 2, updates);
    var w7 := Scene(ASKING.(stage := PaymentReview), [FIRST.(status := ProofReceived)], map[20 := Proof(0, 1)], 2,
                    updates);
    assert Next(w7, STORY[7]) == Scene(PAID, [FIRST_APPROVED], map[20 := Proof(0, 1)], 2, updates) by {
      assert Trim("C") == "C";
    }
    hide Next;
    FirstProofArrives(updates);
    Three(w6, STORY[6], STORY[7], STORY[7]);
    assert STORY[6..8] == [STORY[6], STORY[7]];
  }

  lemma SecondCommitsLate()
    ensures var w := Scene(PAID, [FIRST_APPROVED], map[20 := Proof(0, 1)], 2, []);
            && CommitsTooLate(w, STORY[8])
            && Interleave(w, STORY[8..9])
               == Scene(PAID.(stage := PaymentPending), [FIRST_APPROVED, SECOND], map[20 := Proof(0, 1)], 2, [])
  {
    var w := Scene(PAID, [FIRST_APPROVED], map[20 := Proof(0, 1)], 2, []);
    assert Next(w, STORY[8])
           == Scene(PAID.(stage := PaymentPending), [FIRST_APPROVED, SECOND], map[20 := Proof(0, 1)], 2, []);
    Three(w, STORY[8], STORY[8], STORY[8]);
    assert STORY[8..9] == [STORY[8]];
  }

  lemma SecondIsApproved()
    ensures var w9 := Scene(PAID.(stage := PaymentPending), [FIRST_APPROVED, SECOND], map[20 := Proof(0, 1)], 2, []);
            Interleave(w9, STORY[9..])
            == Scene(PAID, [FIRST_APPROVED, SECOND_APPROVED], map[20 := Proof(0, 1), 21 := Proof(1, 1)], 2, [])
  {
    var w9 := Scene(PAID.(stage := PaymentPending), [FIRST_APPROVED, SECOND], map[20 := Proof(0, 1)], 2, []);
    var w10 := Next(w9, STORY[9]);
    assert w10 == Scene(PAID.(stage := PaymentReview), [FIRST_APPROVED, SECOND.(status := ProofReceived)],
                        map[20 := Proof(0, 1), 21 := Proof(1, 1)], 2, []);
    assert Trim("C") == "C";
    assert Next(w10, STORY[10])
        == Scene(PAID, [FIRST_APPROVED, SECOND_APPROVED], map[20 := Proof(0, 1), 21 := Proof(1, 1)], 2, []);
    Three(w9, STORY[9], STORY[10], STORY[10]);
    assert STORY[9..] == [STORY[9], STORY[10]];
  }

  lemma {:induction false} InterleaveInTwo(w: World, a: seq<Action>, b: seq<Action>)
    ensures Interleave(w, a + b) == Interleave(Interleave(w, a), b)
    decreases |a|
  {
    hide Next;
    if a == [] {
      assert a + b == b;
    } else {
      assert (a + b)[1..] == a[1..] + b;
      InterleaveInTwo(Next(w, a[0]), a[1..], b);
    }
  }

  /** After the late commit the won lead is back at payment pending, and in the end one lead has two
      approved transfers. */
  lemma TwoApprovedTransfers()
    ensures var start := World(Db(map[7 := 1], [], [], map[]), [], []);
            && Interleave(start, STORY[..8]).db.leads == [PAID]
            && Interleave(start, STORY[..9]).db.leads == [PAID.(stage := PaymentPending)]
            && Interleave(start, STORY).db.transfers == [FIRST_APPROVED, SECOND_APPROVED]
            && PAID.stage == Won && FIRST_APPROVED.status == SECOND_APPROVED.status == Approved
            && FIRST_APPROVED.lead == SECOND_APPROVED.lead
  {
    hide Next;
    var start := World(Db(map[7 := 1], [], [], map[]), [], []);
    SetUp();
    BothDecided([]);
    FirstIsApproved([]);
    SecondCommitsLate();
    SecondIsApproved();
    InterleaveInTwo(start, STORY[..3], STORY[3..6]);
    InterleaveInTwo(start, STORY[..6], STORY[6..8]);
    InterleaveInTwo(start, STORY[..8], STORY[8..9]);
    InterleaveInTwo(start, STORY[..9], STORY[9..]);
    assert STORY[..3] + STORY[3..6] == STORY[..6] && STORY[..6] + STORY[6..8] == STORY[..8];
    assert STORY[..8] + STORY[8..9] == STORY[..9] && STORY[..9] + STORY[9..] == STORY;
  }

  // The other failure: an operator's update reads the lead while it is open and writes LOST after its
  // transfer has been approved.

  const TO_LOST := Change(Some(Lost), None, None, None, None, None)
  const OVERTAKEN_STORY := STORY[..3] + [DoRead(0, TO_LOST)] + STORY[3..8] + [DoWrite(0)]

  lemma OperatorReads()
    ensures Next(Scene(ASKING, [], map[], 0, []), DoRead(0, TO_LOST))
         == Scene(ASKING, [], map[], 0, [Pending(0, TO_LOST, Qualified)])
  {
  }

  lemma OperatorWrites()
    ensures var w := Scene(PAID, [FIRST_APPROVED], map[20 := Proof(0, 1)], 2, [Pending(0, TO_LOST, Qualified)]);
            WritesTooLate(w, DoWrite(0)) && Next(w, DoWrite(0)).db == w.db.(leads := [PAID.(stage := Lost)])
  {
  }

  /** After the late write the won lead is lost, although its transfer stays approved. */
  lemma LateUpdateLosesAWonLead()
    ensures var start := World(Db(map[7 := 1], [], [], map[]), [], []);
            && Interleave(start, OVERTAKEN_STORY[..9]).db.leads == [PAID]
            && Interleave(start, OVERTAKEN_STORY).db.leads == [PAID.(stage := Lost)]
            && Interleave(start, OVERTAKEN_STORY).db.transfers == [FIRST_APPROVED]
  {
    hide Next;
    var start, read := World(Db(map[7 := 1], [], [], map[]), [], []), [Pending(0, TO_LOST, Qualified)];
    SetUp();
    OperatorReads();
    BothDecided(read);
    FirstIsApproved(read);
    OperatorWrites();
    var asking := Scene(ASKING, [], map[], 0, []);
    var won := Scene(PAID, [FIRST_APPROVED], map[20 := Proof(0, 1)], 2, read);
    Three(asking, DoRead(0, TO_LOST), DoRead(0, TO_LOST), DoRead(0, TO_LOST));
    Three(won, DoWrite(0), DoWrite(0), DoWrite(0));
    InterleaveInTwo(start, STORY[..3], [DoRead(0, TO_LOST)]);
    InterleaveInTwo(start, STORY[..3] + [DoRead(0, TO_LOST)], STORY[3..8]);
    InterleaveInTwo(Scene(ASKING, [], map[], 0, read), STORY[3..6], STORY[6..8]);
    InterleaveInTwo(start, OVERTAKEN_STORY[..9], [DoWrite(0)]);
    assert STORY[3..6] + STORY[6..8] == STORY[3..8];
    assert OVERTAKEN_STORY[..9] == STORY[..3] + [DoRead(0, TO_LOST)] + STORY[3..8];
  }
}
