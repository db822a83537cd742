/** What the operations on leads do, told by the stages and leads they lead to, and when instructions are
    sent. */
module PaymentEffects {
  import opened Options
  import opened Payments
  import opened PaymentSafety

  /** The lead is the contact's newest or, if a conversation is given, that of both. */
  ghost predicate IsNewest(db: Db, contact: ContactId, conversation: Option<ConversationId>, l: LeadId) {
    && l < |db.leads| && IsTheirs(db.leads[l], contact, conversation)
    && forall m: nat :: l < m < |db.leads| ==> !IsTheirs(db.leads[m], contact, conversation)
  }

  predicate IsTheirs(lead: Lead, contact: ContactId, conversation: Option<ConversationId>) {
    lead.contact == contact && (conversation.None? || lead.conversation == conversation)
  }

  lemma {:induction false} NewestIsFound(db: Db, contact: ContactId, conversation: Option<ConversationId>, upto: nat)
    requires upto <= |db.leads|
    ensures var found := FindLead(db, contact, conversation, upto);
            && (found.None? ==> forall m: nat :: m < upto ==> !IsTheirs(db.leads[m], contact, conversation))
            && (found.Some? ==>
                  && found.value < upto && IsTheirs(db.leads[found.value], contact, conversation)
                  && forall m: nat :: found.value < m < upto ==> !IsTheirs(db.leads[m], contact, conversation))
  {
    if upto > 0 {
      NewestIsFound(db, contact, conversation, upto - 1);
    }
  }

  /** Instructions are decided on exactly if they are asked for and the newest lead of the conversation
      is between QUALIFIED and PAYMENT_PENDING, has a proposal, and has no approved transfer. */
  lemma InstructionsAreDecidedIff(db: Db, c: ConversationId, contact: ContactId, asks: bool, source: MessageId,
          l: LeadId)
    requires l < |db.leads|
    ensures var d := Decide(db, c, contact, asks, source);
            (d.Some? && d.value.lead == l) <==>
              && asks && IsNewest(db, contact, Some(c), l) && db.leads[l].proposal > 0
              && db.leads[l].stage in {Qualified, Proposal, Negotiation, PaymentPending}
              && forall t: nat :: t < |db.transfers| && db.transfers[t].lead == l ==> db.transfers[t].status != Approved
    ensures var d := Decide(db, c, contact, asks, source);
            d.Some? && d.value.lead == l ==>
              && d.value.conversation == c && d.value.contact == contact && d.value.source == source
              && d.value.amount == db.leads[l].proposal
              && (|| db.leads[l].currency == Some(d.value.currency)
                  || (db.leads[l].currency in {None, Some("")} && d.value.currency == "USD"))
              && d.value.currency != ""
  {
    NewestIsFound(db, contact, Some(c), |db.leads|);
    hide FindLead;
  }

  // ---------------------------------------------------------------- the stages of a lead

  /** The operation that has read the lead writes this stage to it. */
  predicate Reaches(db: Db, op: Op, l: LeadId, stage: Stage)
    requires l < |db.leads|
  {
    var lead := db.leads[l];
    match op
    case DoUpdate(m, change) => m == l && change.stage == Some(stage) && Objection(db, l, change).None?
    case DoContact(m) => m == l && lead.stage == New && stage == Contacted
    case DoMeeting(m, contact) =>
      m == l && lead.contact == contact && lead.stage in {New, Contacted} && stage == Qualified
    case _ => false
  }

  /** The contact's newest lead is qualified, and linked to the contact's conversation. */
  ghost predicate QualifiesIt(db: Db, op: Op, l: LeadId)
    requires l < |db.leads|
  {
    && op.DoQualify? && op.hasContext && op.contact in db.home && IsNewest(db, op.contact, None, l)
    && db.leads[l].stage in {New, Contacted}
    && (db.leads[l].conversation == Some(db.home[op.contact]) || !Linked(db, db.home[op.contact]))
  }

  ghost predicate RequestsIt(db: Db, op: Op, l: LeadId) {
    && op.DoRequest? && OpenOf(db, op.c, None).None? && !SourceUsed(db, op.source)
    && var d := Decide(db, op.c, op.contact, op.asks, op.source); d.Some? && d.value.lead == l
  }

  ghost predicate ProvesIt(db: Db, op: Op, l: LeadId) {
    && op.DoProof? && op.m !in db.proofs
    && var t := OpenOf(db, op.c, Some(op.contact));
    && t.Some? && db.transfers[t.value].lead == l
    && db.transfers[t.value].status in {InstructionsPrepared, InstructionsSent}
  }

  predicate RejectsIt(db: Db, op: Op, l: LeadId) {
    && op.DoReject? && Trim(op.note) != "" && op.t < |db.transfers| && db.transfers[op.t].lead == l
    && db.transfers[op.t].status == op.expected && op.expected in {ProofReceived, UnderReview}
  }

  lemma LeadOpStage(db: Db, op: Op, l: LeadId)
    requires l < |db.leads| && (op.DoContact? || op.DoMeeting? || op.DoCreateLead? || op.DoFindOrCreate?)
    ensures l < |Apply(db, op).leads|
    ensures Apply(db, op).leads[l].stage != db.leads[l].stage ==> Reaches(db, op, l, Apply(db, op).leads[l].stage)
    ensures forall stage :: Reaches(db, op, l, stage) ==> Apply(db, op).leads[l].stage == stage
    ensures Apply(db, op).leads[l] == db.leads[l].(stage := Apply(db, op).leads[l].stage,
                                                  conversation := Apply(db, op).leads[l].conversation)
  {
    hide Linked;
    hide HasOpenLead;
  }

  lemma UpdateStage(db: Db, op: Op, l: LeadId)
    requires Sound(db) && l < |db.leads| && op.DoUpdate?
    ensures l < |Apply(db, op).leads|
    ensures Apply(db, op).leads[l].stage != db.leads[l].stage ==> Reaches(db, op, l, Apply(db, op).leads[l].stage)
    ensures forall stage :: Reaches(db, op, l, stage) ==> Apply(db, op).leads[l].stage == stage
  {
    assert LeadOk(db.home, db.leads[l]);
    hide Sound;
    hide HasOpen;
    hide HasDeal;
    hide BreaksMilestone;
    if op.lead == l && Objection(db, l, op.change).None? && Wins(db.leads[l].stage, op.change) {
      UpdatedDealIsComplete(db, l, op.change);
    }
  }

  lemma UpdatedDealIsComplete(db: Db, l: LeadId, change: Change)
    requires Objection(db, l, change).None? && Wins(db.leads[l].stage, change)
    ensures var lead := Changed(db.leads[l], change); lead.amount.Some? && lead.currency.Some? && lead.reference.Some?
  {
    HasDealIsComplete(Changed(db.leads[l], change));
  }

  lemma QualifyStage(db: Db, op: Op, l: LeadId)
    requires l < |db.leads| && op.DoQualify?
    ensures l < |Apply(db, op).leads|
    ensures QualifiesIt(db, op, l) ==>
              Apply(db, op).leads[l] == db.leads[l].(stage := Qualified, conversation := Some(db.home[op.contact]))
    ensures !QualifiesIt(db, op, l) ==> Apply(db, op).leads[l] == db.leads[l]
  {
    NewestIsFound(db, op.contact, None, |db.leads|);
    hide FindLead;
    hide Linked;
  }

  lemma PaymentOpStage(db: Db, op: Op, l: LeadId)
    requires Sound(db) && l < |db.leads| && (op.DoRequest? || op.DoProof? || op.DoReject?)
    ensures l < |Apply(db, op).leads|
    ensures Apply(db, op).leads[l] == db.leads[l].(stage := Apply(db, op).leads[l].stage)
    ensures Apply(db, op).leads[l].stage
         == if RequestsIt(db, op, l) || RejectsIt(db, op, l) then PaymentPending
            else if ProvesIt(db, op, l) then PaymentReview
            else db.leads[l].stage
  {
    hide Trim;
    match op
    case DoRequest(_, _, _, _) =>
      hide Sound;
    case DoProof(c, contact, m) =>
      var t := OpenOf(db, c, Some(contact));
      if t.Some? {
        assert TransferOk(db, t.value);
      }
    case DoReject(t, _, _) =>
      if t < |db.transfers| {
        assert TransferOk(db, t);
      }
  }

  /** The operation leaves the lead at this stage. */
  ghost predicate Moves(db: Db, op: Op, l: LeadId, stage: Stage)
    requires l < |db.leads|
  {
    || Reaches(db, op, l, stage)
    || (QualifiesIt(db, op, l) && stage == Qualified)
    || ((RequestsIt(db, op, l) || RejectsIt(db, op, l)) && stage == PaymentPending)
    || (ProvesIt(db, op, l) && stage == PaymentReview)
    || (WonByTransfer(db, op, l) && stage == Won)
  }

  lemma ApprovalStage(db: Db, op: Op, l: LeadId)
    requires Sound(db) && l < |db.leads| && op.DoApprove?
    ensures l < |Apply(db, op).leads|
    ensures Apply(db, op).leads[l].stage == if WonByTransfer(db, op, l) then Won else db.leads[l].stage
  {
    if db.leads[l].stage != Won {
      ApprovalWins(db, op, l);
      hide Trim;
      hide Sound;
    } else {
      ApplyStep(db, op, l);
    }
  }

  /** Every operation moves a lead to the stage that it reaches, and leaves every other lead's as it is. */
  lemma StageAfter(db: Db, op: Op, l: LeadId, stage: Stage)
    requires Sound(db) && l < |db.leads|
    ensures l < |Apply(db, op).leads|
    ensures Moves(db, op, l, stage) ==> Apply(db, op).leads[l].stage == stage
    ensures (forall s :: !Moves(db, op, l, s)) ==> Apply(db, op).leads[l].stage == db.leads[l].stage
  {
    hide Sound;
    hide Apply;
    hide RequestsIt;
    hide ProvesIt;
    hide RejectsIt;
    hide QualifiesIt;
    hide WonByTransfer;
    OnlyItsOwn(db, op, l);
    NoStageLost(db, op, l);
    match op
    case DoUpdate(_, _) => UpdateStage(db, op, l);
    case DoQualify(_, _) =>
      QualifyStage(db, op, l);
      assert QualifiesIt(db, op, l) ==> Moves(db, op, l, Qualified);
    case DoApprove(_, _, _, _) =>
      ApprovalStage(db, op, l);
      assert WonByTransfer(db, op, l) ==> Moves(db, op, l, Won);
    case DoRequest(_, _, _, _) => PaymentOpMoves(db, op, l);
    case DoProof(_, _, _) => PaymentOpMoves(db, op, l);
    case DoReject(_, _, _) => PaymentOpMoves(db, op, l);
    case DoReconcile(_, _) => TransferOpStage(db, op, l);
    case DoStartReview(_) => TransferOpStage(db, op, l);
    case _ => LeadOpStage(db, op, l);
  }

  lemma NoStageLost(db: Db, op: Op, l: LeadId)
    requires l < |db.leads|
    ensures l < |Apply(db, op).leads| ==>
              forall s :: Reaches(db, op, l, s) ==> Moves(db, op, l, s)
  {
  }

  lemma PaymentOpMoves(db: Db, op: Op, l: LeadId)
    requires Sound(db) && l < |db.leads| && (op.DoRequest? || op.DoProof? || op.DoReject?)
    ensures l < |Apply(db, op).leads|
    ensures Apply(db, op).leads[l].stage
         == if RequestsIt(db, op, l) || RejectsIt(db, op, l) then PaymentPending
            else if ProvesIt(db, op, l) then PaymentReview
            else db.leads[l].stage
    ensures RequestsIt(db, op, l) || RejectsIt(db, op, l) ==> Moves(db, op, l, PaymentPending)
    ensures ProvesIt(db, op, l) ==> Moves(db, op, l, PaymentReview)
  {
    PaymentOpStage(db, op, l);
  }

  lemma TransferOpStage(db: Db, op: Op, l: LeadId)
    requires l < |db.leads| && (op.DoReconcile? || op.DoStartReview?)
    ensures Apply(db, op).leads == db.leads
  {
  }

  lemma OnlyItsOwn(db: Db, op: Op, l: LeadId)
    ensures QualifiesItAt(db, op, l) ==> op.DoQualify?
    ensures RequestsIt(db, op, l) ==> op.DoRequest?
    ensures ProvesIt(db, op, l) ==> op.DoProof?
    ensures RejectsIt(db, op, l) ==> op.DoReject?
    ensures WonByTransfer(db, op, l) ==> op.DoApprove?
  {
  }

  ghost predicate QualifiesItAt(db: Db, op: Op, l: LeadId) {
    l < |db.leads| && QualifiesIt(db, op, l)
  }

  // ---------------------------------------------------------------- new leads, and what they are linked to

  /** A new lead is the contact's, at the stage it is created at, without a proposal or a deal; one that
      an automatic operation creates is linked to the contact's conversation. */
  lemma NewLeadsAreBlank(db: Db, op: Op, l: LeadId)
    requires |db.leads| <= l < |Apply(db, op).leads|
    ensures l == |db.leads| && (op.DoCreateLead? || op.DoFindOrCreate? || op.DoQualify?)
    ensures var lead := Apply(db, op).leads[l];
            && op.contact in db.home && lead.contact == op.contact
            && lead.conversation == (if op.DoCreateLead? && !op.linked then None else Some(db.home[op.contact]))
            && lead.stage == (if op.DoCreateLead? then op.stage
                              else if op.DoQualify? && op.hasContext then Qualified else New)
            && lead.proposal == 0 && lead.amount == None && lead.currency == None && lead.reference == None
            && lead.lostReason == None && lead.milestone == None
    ensures op.DoCreateLead? ==>
              op.stage != Won && forall m: nat :: m < |db.leads| && db.leads[m].contact == op.contact ==>
                db.leads[m].stage in {Won, Lost}
    ensures !op.DoCreateLead? ==> forall m: nat :: m < |db.leads| ==> db.leads[m].contact != op.contact
  {
    if !op.DoCreateLead? && !op.DoApprove? && !op.DoRequest? && !op.DoProof? && !op.DoReject? && !op.DoUpdate? {
      if op.DoFindOrCreate? || op.DoQualify? {
        NewestIsFound(db, op.contact, None, |db.leads|);
        forall m: nat | m < |db.leads| && FindLead(db, op.contact, None, |db.leads|).None?
          ensures db.leads[m].contact != op.contact
        {
          assert !IsTheirs(db.leads[m], op.contact, None);
        }
      }
    }
  }

  /** A lead is linked to its contact's conversation by the contact's next message, unless another lead
      is linked to it. */
  lemma MessagesLinkTheNewestLead(db: Db, contact: ContactId, l: LeadId)
    requires l < |db.leads|
    ensures l < |Apply(db, DoFindOrCreate(contact)).leads|
    ensures var links := contact in db.home && IsNewest(db, contact, None, l) && !Linked(db, db.home[contact]);
            Apply(db, DoFindOrCreate(contact)).leads[l]
            == if links then db.leads[l].(conversation := Some(db.home[contact])) else db.leads[l]
  {
    NewestIsFound(db, contact, None, |db.leads|);
    hide FindLead;
    if contact in db.home && IsNewest(db, contact, None, l) && db.leads[l].conversation == Some(db.home[contact]) {
      assert Linked(db, db.home[contact]);
    }
  }

  /** Some lead is linked to the conversation. */
  predicate HasLead(db: Db, c: ConversationId) {
    exists l: nat | l < |db.leads| :: db.leads[l].conversation == Some(c)
  }

  /** The contact's newest lead is linked to its conversation. */
  ghost predicate NewestIsLinked(db: Db, contact: ContactId) {
    contact in db.home
    && exists l: nat :: l < |db.leads| && IsNewest(db, contact, None, l)
                        && db.leads[l].conversation == Some(db.home[contact])
  }

  /** An operator creates a lead exactly if it does not start won, the contact is known and has no lead
      that goes on, and the conversation it is to be linked to has none. */
  lemma LeadIsCreatedIff(db: Db, contact: ContactId, linked: bool, stage: Stage)
    ensures CreateLead(db, contact, linked, stage).Done? <==>
              && stage != Won && contact in db.home && (linked ==> !HasLead(db, db.home[contact]))
              && forall l: nat :: l < |db.leads| && db.leads[l].contact == contact ==> db.leads[l].stage in {Won, Lost}
  {
  }

  /** A message finds or makes the contact's lead exactly if the contact is known and its newest lead is
      the one of its conversation, or the conversation has none. */
  lemma MessageFindsALeadIff(db: Db, contact: ContactId)
    ensures FindOrCreate(db, contact).Done? <==>
              contact in db.home && (NewestIsLinked(db, contact) || !HasLead(db, db.home[contact]))
  {
    NewestIsFound(db, contact, None, |db.leads|);
  }

  /** A qualification is refused exactly if the contact is unknown, or if its conversation is another
      lead's and either the contact has no lead or its newest is to be promoted. */
  lemma QualificationRefusedIff(db: Db, contact: ContactId, hasContext: bool)
    ensures Qualify(db, contact, hasContext).Refused? <==>
              || contact !in db.home
              || (&& HasLead(db, db.home[contact]) && !NewestIsLinked(db, contact)
                  && forall l: nat :: l < |db.leads| && IsNewest(db, contact, None, l) ==>
                       hasContext && db.leads[l].stage in {New, Contacted})
  {
    NewestIsFound(db, contact, None, |db.leads|);
    if contact in db.home && FindLead(db, contact, None, |db.leads|).Some? {
      assert IsNewest(db, contact, None, FindLead(db, contact, None, |db.leads|).value);
    }
  }

  // ---------------------------------------------------------------- the operator's moves

  function Position(s: Stage): nat {
    match s
    case New => 0
    case Contacted => 1
    case Qualified => 2
    case Proposal => 3
    case Negotiation => 4
    case PaymentPending => 5
    case PaymentReview => 6
    case Won => 7
    case Lost => 8
  }

  /** Which moves an operator may make: forward up to QUALIFIED; then between PROPOSAL, NEGOTIATION and
      PAYMENT_PENDING, back to NEGOTIATION only from the last; to WON from PROPOSAL or NEGOTIATION;
      and to LOST from anywhere but a review or an end. */
  lemma MovesAllowed(s: Stage, t: Stage)
    ensures t in AllowedFrom(s) <==>
              && Position(s) < 6
              && (|| t == Lost
                  || (Position(s) < Position(t) <= 2)
                  || (2 <= Position(s) <= 4 && 3 <= Position(t) <= 5 && s != t)
                  || (s == PaymentPending && t == Negotiation)
                  || (s in {Proposal, Negotiation} && t == Won))
  {
  }

  /** A field that an update names has its value, and one that it does not name is as it was. */
  predicate Named<T(==)>(was: Option<T>, named: Option<T>, now: Option<T>) {
    if named.Some? then now == named else now == was
  }

  /** The update names another contract than a won lead's, or another reason than a lost lead's. */
  predicate Contradicts(lead: Lead, change: Change) {
    || (lead.stage == Won && change.amount.Some? && change.amount.value > 0 && change.amount != lead.amount)
    || (lead.stage == Won && change.amount == Some(0) && lead.amount !in {None, Some(0)})
    || (lead.stage == Won && change.currency.Some? && change.currency != lead.currency)
    || (lead.stage == Won && change.reference.Some? && change.reference != lead.reference)
    || (lead.stage == Lost && change.lostReason.Some? && change.lostReason != lead.lostReason)
  }

  /** The lead after an update: the named fields, and the contract exactly if that wins it. */
  ghost predicate Edited(was: Lead, now: Lead, change: Change) {
    && now.contact == was.contact && now.conversation == was.conversation
    && Named(Some(was.stage), change.stage, Some(now.stage))
    && Named(Some(was.proposal), change.proposal, Some(now.proposal))
    && Named(was.amount, change.amount, now.amount) && Named(was.currency, change.currency, now.currency)
    && Named(was.reference, change.reference, now.reference) && Named(was.lostReason, change.lostReason, now.lostReason)
    && (if was.stage != Won && now.stage == Won then
          && now.amount.Some? && now.currency.Some? && now.reference.Some?
          && now.milestone == Some(Deal(now.amount.value, now.currency.value, now.reference.value))
        else now.milestone == was.milestone)
  }

  lemma BreakingIsContradicting(lead: Lead, change: Change)
    ensures BreaksMilestone(lead, change) <==> Contradicts(lead, change)
  {
  }

  lemma CompleteDeal(lead: Lead)
    requires HasDeal(lead)
    ensures CompleteContract(lead)
  {
    hide Trim;
  }

  /** Why an update is refused, in the order of the checks. */
  lemma UpdateRefusedFor(db: Db, l: LeadId, change: Change)
    requires Sound(db)
    ensures Update(db, l, change) == Refused(NotFound) <==> l >= |db.leads|
    ensures l < |db.leads| ==>
              var lead, why := db.leads[l], Objection(db, l, change);
              && (why == Some(ReviewPending) <==>
                     lead.stage == PaymentReview && change.stage !in {None, Some(PaymentReview)})
              && (why == Some(TransferOpen) <==>
                    change.stage == Some(Won) && lead.stage !in {Won, PaymentReview} && HasOpen(db, l))
              && (why == Some(NoTransferOpen) <==>
                    change.stage == Some(PaymentPending) && lead.stage !in {PaymentPending, PaymentReview}
                      && !HasOpen(db, l))
              && (why !in {Some(ReviewPending), Some(TransferOpen), Some(NoTransferOpen)} ==>
                    (why == Some(MilestoneImmutable) <==> Contradicts(lead, change)))
              && (why in {None, Some(TransitionNotAllowed), Some(DealIncomplete)} ==>
                    (why == Some(TransitionNotAllowed) <==>
                       change.stage.Some? && change.stage.value != lead.stage
                         && change.stage.value !in AllowedFrom(lead.stage)))
              && (why == Some(DealIncomplete) ==> change.stage == Some(Won) && lead.stage in {Proposal, Negotiation})
              && why in {None, Some(ReviewPending), Some(TransferOpen), Some(NoTransferOpen), Some(MilestoneImmutable),
                         Some(TransitionNotAllowed), Some(DealIncomplete)}
  {
    if l < |db.leads| {
      BreakingIsContradicting(db.leads[l], change);
      hide Contradicts;
      hide BreaksMilestone;
      hide HasDeal;
      hide HasOpen;
      hide Sound;
      hide Write;
    }
  }

  /** What an update that is not refused writes. */
  lemma UpdateWrites(db: Db, l: LeadId, change: Change)
    requires Sound(db) && l < |db.leads| && Objection(db, l, change).None?
    ensures Update(db, l, change).Done?
    ensures var was, after := db.leads[l], Update(db, l, change).db;
            && |after.leads| == |db.leads| && after == db.(leads := db.leads[l := after.leads[l]])
            && Edited(was, after.leads[l], change) && !Contradicts(was, change)
            && (after.leads[l].stage == was.stage || after.leads[l].stage in AllowedFrom(was.stage))
            && (was.stage != Won && after.leads[l].stage == Won ==> CompleteContract(after.leads[l]))
  {
    var was, lead := db.leads[l], Changed(db.leads[l], change);
    assert LeadOk(db.home, was);
    BreakingIsContradicting(was, change);
    hide Contradicts;
    hide Sound;
    hide HasOpen;
    hide BreaksMilestone;
    hide HasDeal;
    if Wins(was.stage, change) {
      CompleteDeal(lead);
      hide CompleteContract;
      assert db.leads[l := lead][l := lead.(milestone := Some(DealOf(lead)))]
             == db.leads[l := lead.(milestone := Some(DealOf(lead)))];
      SameContract(lead, Some(DealOf(lead)));
    }
  }

  ghost predicate CompleteContract(lead: Lead) {
    && lead.amount.Some? && lead.amount.value > 0 && lead.currency.Some? && |lead.currency.value| == 3
    && (forall i :: 0 <= i < 3 ==> 'A' <= lead.currency.value[i] <= 'Z')
    && lead.reference.Some? && Trim(lead.reference.value) != ""
  }

  lemma SameContract(lead: Lead, deal: Option<Deal>)
    requires CompleteContract(lead)
    ensures CompleteContract(lead.(milestone := deal))
  {
  }

  /** An update that would win a lead is refused as incomplete exactly if its contract is. */
  lemma IncompleteIff(db: Db, l: LeadId, change: Change)
    requires l < |db.leads| && Wins(db.leads[l].stage, change)
    requires Objection(db, l, change) in {None, Some(DealIncomplete)}
    ensures Objection(db, l, change).None? <==> CompleteContract(Changed(db.leads[l], change))
  {
    hide Trim;
    hide HasOpen;
  }

  // ---------------------------------------------------------------- texts

  /** White space and line ends as sections 12.2 and 12.3 of ECMA-262 list them, by code point. */
  predicate IsBlank(c: char) {
    (c as int) in {0x9, 0xA, 0xB, 0xC, 0xD, 0x20, 0xA0, 0x1680, 0x2000, 0x2001, 0x2002, 0x2003, 0x2004, 0x2005,
                   0x2006, 0x2007, 0x2008, 0x2009, 0x200A, 0x2028, 0x2029, 0x202F, 0x205F, 0x3000, 0xFEFF}
  }

  predicate AllBlank(s: string) {
    forall i :: 0 <= i < |s| ==> IsBlank(s[i])
  }

  lemma SpaceIsBlank(c: char)
    ensures IsSpace(c) <==> IsBlank(c)
  {
  }

  lemma {:induction false} TrimStartTakes(s: string) returns (front: string)
    ensures s == front + TrimStart(s) && AllBlank(front)
    ensures TrimStart(s) != "" ==> !IsBlank(TrimStart(s)[0])
  {
    hide IsBlank;
    hide IsSpace;
    front := "";
    if s != "" {
      SpaceIsBlank(s[0]);
      if IsSpace(s[0]) {
        var more := TrimStartTakes(s[1..]);
        front := [s[0]] + more;
        assert s == [s[0]] + s[1..];
      }
    }
  }

  lemma {:induction false} TrimEndTakes(s: string) returns (back: string)
    ensures s == TrimEnd(s) + back && AllBlank(back)
    ensures TrimEnd(s) != "" ==> !IsBlank(TrimEnd(s)[|TrimEnd(s)| - 1]) && TrimEnd(s)[0] == s[0]
  {
    hide IsBlank;
    hide IsSpace;
    back := "";
    if s != "" {
      var last := s[|s| - 1];
      SpaceIsBlank(last);
      if IsSpace(last) {
        var more := TrimEndTakes(s[..|s| - 1]);
        back := more + [last];
        assert s == s[..|s| - 1] + [last];
      }
    }
  }

  /** Trimming takes off exactly the white space at both ends. */
  lemma TrimTakesTheEnds(s: string) returns (front: string, back: string)
    ensures s == front + Trim(s) + back && AllBlank(front) && AllBlank(back)
    ensures Trim(s) != "" ==> !IsBlank(Trim(s)[0]) && !IsBlank(Trim(s)[|Trim(s)| - 1])
    ensures Trim(s) == "" <==> AllBlank(s)
  {
    hide IsBlank;
    hide TrimStart;
    hide TrimEnd;
    front := TrimStartTakes(s);
    back := TrimEndTakes(TrimStart(s));
    if Trim(s) != "" {
      assert s[|front|] == Trim(s)[0];
    }
  }

  /** A currency is three capital letters of ASCII. */
  lemma CurrencyIff(s: string)
    ensures IsCurrency(s) <==> exists a: char, b: char, c: char ::
              s == [a, b, c] && 65 <= a as int <= 90 && 65 <= b as int <= 90 && 65 <= c as int <= 90
  {
    if |s| == 3 {
      assert s == [s[0], s[1], s[2]];
    }
  }
}
