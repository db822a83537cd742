/** Leads and their transfer payments: two services that write the stage of one lead. Row ids are
    positions; no row is ever deleted. Each operation is one transaction. */
module Payments {
  import opened Options

  type ConversationId = nat
  type ContactId = nat
  type LeadId = nat
  type TransferId = nat
  type MessageId = nat

  datatype Stage = New | Contacted | Qualified | Proposal | Negotiation | PaymentPending | PaymentReview | Won | Lost

  datatype TransferStatus =
    | InstructionsPrepared | InstructionsSent | ProofReceived | UnderReview
    | Approved | Rejected | Cancelled | Expired

  /** The recorded contract: an immutable milestone. Amounts are in cents. */
  datatype Deal = Deal(amount: nat, currency: string, reference: string)

  datatype Lead = Lead(
    contact: ContactId, conversation: Option<ConversationId>, stage: Stage, proposal: nat,
    amount: Option<nat>, currency: Option<string>, reference: Option<string>, lostReason: Option<string>,
    milestone: Option<Deal>)

  datatype Transfer = Transfer(
    lead: LeadId, conversation: ConversationId, contact: ContactId, amount: nat, currency: string,
    status: TransferStatus, source: MessageId, instructions: Option<MessageId>, reviewedProof: Option<MessageId>)

  datatype Proof = Proof(transfer: TransferId, conversation: ConversationId)

  /** `home` is the conversation of each contact. */
  datatype Db = Db(
    home: map<ContactId, ConversationId>, leads: seq<Lead>, transfers: seq<Transfer>, proofs: map<MessageId, Proof>)

  datatype Refusal =
    | NotFound | ReviewPending | TransferOpen | NoTransferOpen | MilestoneImmutable | TransitionNotAllowed
    | DealIncomplete | StatusChanged | ForeignProof | StageChanged | ReferenceMissing | NoteMissing
    | LeadOpen | WonNeedsMilestone | ConversationTaken | SourceTaken

  datatype Outcome = Done(db: Db) | Refused(why: Refusal)

  predicate IsOpen(s: TransferStatus) {
    s in {InstructionsPrepared, InstructionsSent, ProofReceived, UnderReview}
  }

  predicate InReview(s: TransferStatus) {
    s in {ProofReceived, UnderReview}
  }

  predicate MayRequest(s: Stage) {
    s in {Qualified, Proposal, Negotiation, PaymentPending}
  }

  predicate IsPromotable(s: Stage) {
    s in {New, Contacted}
  }

  predicate IsEnd(s: Stage) {
    s in {Won, Lost}
  }

  function AllowedFrom(s: Stage): set<Stage> {
    match s
    case New => {Contacted, Qualified, Lost}
    case Contacted => {Qualified, Lost}
    case Qualified => {Proposal, Negotiation, PaymentPending, Lost}
    case Proposal => {Negotiation, PaymentPending, Won, Lost}
    case Negotiation => {Proposal, PaymentPending, Won, Lost}
    case PaymentPending => {Negotiation, Lost}
    case _ => {}
  }

  predicate IsSpace(c: char) {
    || c == ' ' || '\t' <= c <= '\r'
    || c in {'\U{00A0}', '\U{1680}', '\U{2028}', '\U{2029}', '\U{202F}', '\U{205F}', '\U{3000}', '\U{FEFF}'}
    || '\U{2000}' <= c <= '\U{200A}'
  }

  function TrimStart(s: string): string {
    if s != "" && IsSpace(s[0]) then TrimStart(s[1..]) else s
  }

  function TrimEnd(s: string): string {
    if s != "" && IsSpace(s[|s| - 1]) then TrimEnd(s[..|s| - 1]) else s
  }

  function Trim(s: string): string {
    TrimEnd(TrimStart(s))
  }

  predicate IsCurrency(s: string) {
    |s| == 3 && forall i :: 0 <= i < 3 ==> 'A' <= s[i] <= 'Z'
  }

  // ---------------------------------------------------------------- lookups

  predicate OpenAt(db: Db, t: TransferId) {
    t < |db.transfers| && IsOpen(db.transfers[t].status)
  }

  predicate OpenFor(db: Db, c: ConversationId, contact: Option<ContactId>, t: TransferId) {
    && OpenAt(db, t) && db.transfers[t].conversation == c
    && (contact.Some? ==> db.transfers[t].contact == contact.value)
  }

  /** The newest open transfer of a conversation or, if a contact is given, of both. */
  function FindOpen(db: Db, c: ConversationId, contact: Option<ContactId>, upto: nat): (r: Option<TransferId>)
    requires upto <= |db.transfers|
    ensures r.Some? ==> r.value < upto && OpenFor(db, c, contact, r.value)
    ensures r.None? ==> forall t: nat :: t < upto ==> !OpenFor(db, c, contact, t)
  {
    if upto == 0 then None
    else if OpenFor(db, c, contact, upto - 1) then Some(upto - 1)
    else FindOpen(db, c, contact, upto - 1)
  }

  function OpenOf(db: Db, c: ConversationId, contact: Option<ContactId>): (r: Option<TransferId>)
    ensures r.Some? ==> OpenFor(db, c, contact, r.value)
    ensures r.None? ==> forall t: nat :: !OpenFor(db, c, contact, t)
  {
    FindOpen(db, c, contact, |db.transfers|)
  }

  predicate HasOpen(db: Db, l: LeadId) {
    exists t: nat | t < |db.transfers| :: db.transfers[t].lead == l && IsOpen(db.transfers[t].status)
  }

  predicate HasInReview(db: Db, l: LeadId) {
    exists t: nat | t < |db.transfers| :: db.transfers[t].lead == l && InReview(db.transfers[t].status)
  }

  predicate HasTransfer(db: Db, l: LeadId) {
    exists t: nat | t < |db.transfers| :: db.transfers[t].lead == l
  }

  predicate HasApproved(db: Db, l: LeadId) {
    exists t: nat | t < |db.transfers| :: db.transfers[t].lead == l && db.transfers[t].status == Approved
  }

  /** The newest lead of a contact or, if a conversation is given, of both. */
  function FindLead(db: Db, contact: ContactId, conversation: Option<ConversationId>, upto: nat): (r: Option<LeadId>)
    requires upto <= |db.leads|
    ensures r.Some? ==>
              && r.value < upto && db.leads[r.value].contact == contact
              && (conversation.Some? ==> db.leads[r.value].conversation == conversation)
  {
    if upto == 0 then None
    else if db.leads[upto - 1].contact == contact
         && (conversation.None? || db.leads[upto - 1].conversation == conversation)
    then Some(upto - 1)
    else FindLead(db, contact, conversation, upto - 1)
  }

  predicate Linked(db: Db, c: ConversationId) {
    exists l: nat | l < |db.leads| :: db.leads[l].conversation == Some(c)
  }

  predicate SourceUsed(db: Db, source: MessageId) {
    exists t: nat | t < |db.transfers| :: db.transfers[t].source == source
  }

  function SetStage(db: Db, l: LeadId, stage: Stage): Db
    requires l < |db.leads|
  {
    db.(leads := db.leads[l := db.leads[l].(stage := stage)])
  }

  function SetTransfer(db: Db, t: TransferId, row: Transfer): Db
    requires t < |db.transfers|
  {
    db.(transfers := db.transfers[t := row])
  }

  // ---------------------------------------------------------------- leads

  function NewLead(contact: ContactId, conversation: Option<ConversationId>, stage: Stage): Lead {
    Lead(contact, conversation, stage, 0, None, None, None, None, None)
  }

  predicate HasOpenLead(db: Db, contact: ContactId) {
    exists l: nat | l < |db.leads| :: db.leads[l].contact == contact && !IsEnd(db.leads[l].stage)
  }

  function CreateLead(db: Db, contact: ContactId, linked: bool, stage: Stage): Outcome {
    if stage == Won then Refused(WonNeedsMilestone)
    else if HasOpenLead(db, contact) then Refused(LeadOpen)
    else if contact !in db.home then Refused(NotFound)
    else if linked && Linked(db, db.home[contact]) then Refused(ConversationTaken)
    else Done(db.(leads := db.leads + [NewLead(contact, if linked then Some(db.home[contact]) else None, stage)]))
  }

  /** The contact's newest lead, linked to its conversation; a new one if the contact has none. */
  function FindOrCreate(db: Db, contact: ContactId): Outcome {
    if contact !in db.home then Refused(NotFound)
    else
      var c := db.home[contact];
      var existing := FindLead(db, contact, None, |db.leads|);
      if existing.Some? && db.leads[existing.value].conversation == Some(c) then Done(db)
      else if Linked(db, c) then Refused(ConversationTaken)
      else if existing.Some? then
        Done(db.(leads := db.leads[existing.value := db.leads[existing.value].(conversation := Some(c))]))
      else Done(db.(leads := db.leads + [NewLead(contact, Some(c), New)]))
  }

  /** A commercial handoff, or a profile with a need and a service, makes a new lead contacted. */
  function Contact(db: Db, l: LeadId): Outcome {
    if l >= |db.leads| then Refused(NotFound)
    else if db.leads[l].stage == New then Done(SetStage(db, l, Contacted))
    else Done(db)
  }

  function Qualify(db: Db, contact: ContactId, hasContext: bool): Outcome {
    if contact !in db.home then Refused(NotFound)
    else
      var c := db.home[contact];
      var existing := FindLead(db, contact, None, |db.leads|);
      if existing.None? && Linked(db, c) then Refused(ConversationTaken)
      else
        var at := if existing.Some? then db else db.(leads := db.leads + [NewLead(contact, Some(c), New)]);
        var l := if existing.Some? then existing.value else |db.leads|;
        if !IsPromotable(at.leads[l].stage) || !hasContext then Done(at)
        else if at.leads[l].conversation != Some(c) && Linked(at, c) then Refused(ConversationTaken)
        else Done(at.(leads := at.leads[l := at.leads[l].(stage := Qualified, conversation := Some(c))]))
  }

  function QualifyByMeeting(db: Db, l: LeadId, contact: ContactId): Outcome {
    if l >= |db.leads| || db.leads[l].contact != contact || !IsPromotable(db.leads[l].stage) then Done(db)
    else Done(SetStage(db, l, Qualified))
  }

  datatype Change = Change(
    stage: Option<Stage>, amount: Option<nat>, currency: Option<string>, reference: Option<string>,
    lostReason: Option<string>, proposal: Option<nat>)

  function Or<T>(a: Option<T>, b: Option<T>): Option<T> {
    if a.Some? then a else b
  }

  function Changed(lead: Lead, change: Change): Lead {
    lead.(stage := if change.stage.Some? then change.stage.value else lead.stage,
          amount := Or(change.amount, lead.amount), currency := Or(change.currency, lead.currency),
          reference := Or(change.reference, lead.reference), lostReason := Or(change.lostReason, lead.lostReason),
          proposal := if change.proposal.Some? then change.proposal.value else lead.proposal)
  }

  predicate BreaksMilestone(lead: Lead, change: Change) {
    || (lead.stage == Won
        && (|| (change.amount.Some? && change.amount.value != if lead.amount.Some? then lead.amount.value else 0)
            || (change.currency.Some? && change.currency != lead.currency)
            || (change.reference.Some? && change.reference != lead.reference)))
    || (lead.stage == Lost && change.lostReason.Some? && change.lostReason != lead.lostReason)
  }

  predicate HasDeal(lead: Lead) {
    && lead.amount.Some? && lead.amount.value > 0
    && lead.currency.Some? && IsCurrency(lead.currency.value)
    && lead.reference.Some? && Trim(lead.reference.value) != ""
  }

  function DealOf(lead: Lead): Deal
    requires lead.amount.Some? && lead.currency.Some? && lead.reference.Some?
  {
    Deal(lead.amount.value, lead.currency.value, lead.reference.value)
  }

  /** Records the contract as a milestone; a different one that is already recorded refuses. */
  function RecordWon(db: Db, l: LeadId): Outcome
    requires l < |db.leads| && db.leads[l].amount.Some? && db.leads[l].currency.Some? && db.leads[l].reference.Some?
  {
    var lead := db.leads[l];
    if lead.milestone.Some? && lead.milestone.value != DealOf(lead) then Refused(MilestoneImmutable)
    else Done(db.(leads := db.leads[l := lead.(milestone := Some(DealOf(lead)))]))
  }

  /** The stage is moved to won, as the stage that was read tells. */
  predicate Wins(was: Stage, change: Change) {
    change.stage == Some(Won) && was != Won
  }

  /** What `update` checks before it takes its lock, on the lead and its transfers as it reads them, and
      after that still on what it has read. */
  function Objection(db: Db, l: LeadId, change: Change): Option<Refusal> {
    if l >= |db.leads| then Some(NotFound)
    else
      var lead := db.leads[l];
      var next := if change.stage.Some? then change.stage.value else lead.stage;
      if lead.stage == PaymentReview && next != lead.stage then Some(ReviewPending)
      else if next == Won && lead.stage != Won && HasOpen(db, l) then Some(TransferOpen)
      else if next == PaymentPending && lead.stage != PaymentPending && !HasOpen(db, l) then Some(NoTransferOpen)
      else if BreaksMilestone(lead, change) then Some(MilestoneImmutable)
      else if next != lead.stage && next !in AllowedFrom(lead.stage) then Some(TransitionNotAllowed)
      else if Wins(lead.stage, change) && !HasDeal(Changed(lead, change)) then Some(DealIncomplete)
      else None
  }

  /** What `update` writes: the changed fields, over the lead as it is at that moment. */
  function Write(db: Db, l: LeadId, change: Change, was: Stage): Outcome {
    if l >= |db.leads| then Refused(NotFound)
    else
      var lead := Changed(db.leads[l], change);
      var written := db.(leads := db.leads[l := lead]);
      if !Wins(was, change) then Done(written)
      else if lead.amount.None? || lead.currency.None? || lead.reference.None? then Refused(DealIncomplete)
      else RecordWon(written, l)
  }

  /** Reading and writing with nothing in between. */
  function Update(db: Db, l: LeadId, change: Change): Outcome {
    match Objection(db, l, change)
    case Some(why) => Refused(why)
    case None => Write(db, l, change, db.leads[l].stage)
  }

  // ---------------------------------------------------------------- transfers

  /** What `maybeSendInstructions` decides before it takes the lock. */
  datatype Decision = Decision(
    lead: LeadId, conversation: ConversationId, contact: ContactId, amount: nat, currency: string, source: MessageId)

  /** `asks`: transfers are enabled, the text asks for bank data, a service and an active account are known. */
  function Decide(db: Db, c: ConversationId, contact: ContactId, asks: bool, source: MessageId): Option<Decision> {
    var found := FindLead(db, contact, Some(c), |db.leads|);
    if found.None? then None
    else
      var lead := db.leads[found.value];
      if asks && lead.proposal > 0 && MayRequest(lead.stage) && !HasApproved(db, found.value) then
        Some(Decision(found.value, c, contact, lead.proposal,
                      if lead.currency.Some? && lead.currency.value != "" then lead.currency.value else "USD", source))
      else None
  }

  function Commit(db: Db, d: Decision): Outcome {
    if OpenOf(db, d.conversation, None).Some? then Done(db)
    else if SourceUsed(db, d.source) then Refused(SourceTaken)
    else if d.lead >= |db.leads| then Refused(NotFound)
    else
      Done(SetStage(db, d.lead, PaymentPending).(
             transfers := db.transfers
               + [Transfer(d.lead, d.conversation, d.contact, d.amount, d.currency,
                           InstructionsPrepared, d.source, None, None)]))
  }

  /** Decision and commit with nothing in between. */
  function Request(db: Db, c: ConversationId, contact: ContactId, asks: bool, source: MessageId): Outcome {
    var d := Decide(db, c, contact, asks, source);
    if d.Some? then Commit(db, d.value) else Done(db)
  }

  function FindSource(db: Db, source: MessageId, upto: nat): (r: Option<TransferId>)
    requires upto <= |db.transfers|
    ensures r.Some? ==> r.value < upto && db.transfers[r.value].source == source
    ensures r.None? ==> forall t: nat :: t < upto ==> db.transfers[t].source != source
  {
    if upto == 0 then None
    else if db.transfers[upto - 1].source == source then Some(upto - 1)
    else FindSource(db, source, upto - 1)
  }

  /** `outbound` is the message that the delivery of the instructions wrote, if it was confirmed. */
  function Reconcile(db: Db, source: MessageId, outbound: Option<MessageId>): Outcome {
    var t := FindSource(db, source, |db.transfers|);
    if t.None? || db.transfers[t.value].instructions.Some? || outbound.None? then Done(db)
    else
      var row := db.transfers[t.value];
      Done(SetTransfer(db, t.value, row.(
        instructions := outbound,
        status := if row.status == InstructionsPrepared then InstructionsSent else row.status)))
  }

  function DetectProof(db: Db, c: ConversationId, contact: ContactId, m: MessageId): Outcome {
    var t := OpenOf(db, c, Some(contact));
    if t.None? || m in db.proofs then Done(db)
    else
      var row := db.transfers[t.value];
      var recorded := db.(proofs := db.proofs[m := Proof(t.value, c)]);
      if InReview(row.status) then Done(recorded)
      else if row.lead >= |db.leads| then Refused(NotFound)
      else Done(SetStage(SetTransfer(recorded, t.value, row.(status := ProofReceived)), row.lead, PaymentReview))
  }

  function StartReview(db: Db, t: TransferId): Outcome {
    if t >= |db.transfers| then Refused(NotFound)
    else if !InReview(db.transfers[t].status) then Refused(StatusChanged)
    else Done(SetTransfer(db, t, db.transfers[t].(status := UnderReview)))
  }

  function Approve(db: Db, t: TransferId, expected: TransferStatus, proof: MessageId, reference: string): Outcome {
    if Trim(reference) == "" then Refused(ReferenceMissing)
    else if t >= |db.transfers| then Refused(NotFound)
    else
      var row := db.transfers[t];
      if row.status != expected || !InReview(row.status) then Refused(StatusChanged)
      else if proof !in db.proofs || db.proofs[proof] != Proof(t, row.conversation) then Refused(ForeignProof)
      else if row.lead >= |db.leads| || db.leads[row.lead].stage != PaymentReview then Refused(StageChanged)
      else
        var won := db.leads[row.lead].(stage := Won, amount := Some(row.amount), currency := Some(row.currency),
                                       reference := Some(Trim(reference)));
        match RecordWon(db.(leads := db.leads[row.lead := won]), row.lead)
        case Refused(why) => Refused(why)
        case Done(recorded) => Done(SetTransfer(recorded, t, row.(status := Approved, reviewedProof := Some(proof))))
  }

  function Reject(db: Db, t: TransferId, expected: TransferStatus, note: string): Outcome {
    if Trim(note) == "" then Refused(NoteMissing)
    else if t >= |db.transfers| then Refused(NotFound)
    else
      var row := db.transfers[t];
      if row.status != expected || !InReview(row.status) then Refused(StatusChanged)
      else if row.lead >= |db.leads| then Refused(NotFound)
      else Done(SetStage(SetTransfer(db, t, row.(status := Rejected)), row.lead, PaymentPending))
  }

  // ---------------------------------------------------------------- runs

  datatype Op =
    | DoCreateLead(contact: ContactId, linked: bool, stage: Stage)
    | DoFindOrCreate(contact: ContactId)
    | DoContact(lead: LeadId)
    | DoQualify(contact: ContactId, hasContext: bool)
    | DoMeeting(lead: LeadId, contact: ContactId)
    | DoUpdate(lead: LeadId, change: Change)
    | DoRequest(c: ConversationId, contact: ContactId, asks: bool, source: MessageId)
    | DoReconcile(source: MessageId, outbound: Option<MessageId>)
    | DoProof(c: ConversationId, contact: ContactId, m: MessageId)
    | DoStartReview(t: TransferId)
    | DoApprove(t: TransferId, expected: TransferStatus, proof: MessageId, reference: string)
    | DoReject(t: TransferId, expected: TransferStatus, note: string)

  function Attempt(db: Db, op: Op): Outcome {
    match op
    case DoCreateLead(contact, linked, stage) => CreateLead(db, contact, linked, stage)
    case DoFindOrCreate(contact) => FindOrCreate(db, contact)
    case DoContact(l) => Contact(db, l)
    case DoQualify(contact, hasContext) => Qualify(db, contact, hasContext)
    case DoMeeting(l, contact) => QualifyByMeeting(db, l, contact)
    case DoUpdate(l, change) => Update(db, l, change)
    case DoRequest(c, contact, asks, source) => Request(db, c, contact, asks, source)
    case DoReconcile(source, outbound) => Reconcile(db, source, outbound)
    case DoProof(c, contact, m) => DetectProof(db, c, contact, m)
    case DoStartReview(t) => StartReview(db, t)
    case DoApprove(t, expected, proof, reference) => Approve(db, t, expected, proof, reference)
    case DoReject(t, expected, note) => Reject(db, t, expected, note)
  }

  /** What an outcome leaves: a refused operation rolls back. */
  function Settle(db: Db, outcome: Outcome): Db {
    match outcome
    case Done(after) => after
    case Refused(_) => db
  }

  function Apply(db: Db, op: Op): Db {
    Settle(db, Attempt(db, op))
  }
}
