/** What every run of the payment and lead operations keeps. */
module PaymentSafety {
  import opened Options
  import opened Payments

  // ---------------------------------------------------------------- the invariant

  ghost predicate LeadOk(home: map<ContactId, ConversationId>, lead: Lead) {
    && (lead.conversation.Some? ==> lead.contact in home && lead.conversation == Some(home[lead.contact]))
    && (lead.stage == Won <==> lead.milestone.Some?)
    && (lead.stage == Won ==>
          lead.amount.Some? && lead.currency.Some? && lead.reference.Some? && lead.milestone == Some(DealOf(lead)))
  }

  /** What a transfer requires of its lead. */
  ghost predicate Fits(row: Transfer, lead: Lead) {
    && lead.conversation == Some(row.conversation) && lead.contact == row.contact && !IsPromotable(lead.stage)
    && (InReview(row.status) ==> lead.stage == PaymentReview)
    && (IsOpen(row.status) ==> lead.stage != Won)
    && (row.status == Approved ==>
          && lead.stage == Won && lead.milestone.Some?
          && lead.milestone.value.amount == row.amount && lead.milestone.value.currency == row.currency)
    && row.status !in {Cancelled, Expired}
  }

  ghost predicate TransferOk(db: Db, t: TransferId)
    requires t < |db.transfers|
  {
    var row := db.transfers[t];
    && row.lead < |db.leads| && Fits(row, db.leads[row.lead])
    && (row.status == Approved ==>
          row.reviewedProof.Some? && row.reviewedProof.value in db.proofs
          && db.proofs[row.reviewedProof.value] == Proof(t, row.conversation))
  }

  ghost predicate LeadsApart(leads: seq<Lead>) {
    forall l: nat, m: nat ::
      (l < |leads| && m < |leads| && leads[l].conversation.Some? && leads[l].conversation == leads[m].conversation)
      ==> l == m
  }

  /** Both open, or both approved. */
  ghost predicate Alike(a: Transfer, b: Transfer) {
    a.lead == b.lead && ((IsOpen(a.status) && IsOpen(b.status)) || (a.status == Approved && b.status == Approved))
  }

  /** Of the transfers of one lead at most one is open and at most one approved. */
  ghost predicate OneOfEach(transfers: seq<Transfer>) {
    forall t: nat, u: nat :: t < |transfers| && u < |transfers| && Alike(transfers[t], transfers[u]) ==> t == u
  }

  ghost predicate Sound(db: Db) {
    && (forall l: nat :: l < |db.leads| ==> LeadOk(db.home, db.leads[l]))
    && (forall t: nat :: t < |db.transfers| ==> TransferOk(db, t))
    && LeadsApart(db.leads) && OneOfEach(db.transfers)
    && (forall m :: m in db.proofs ==> db.proofs[m].transfer < |db.transfers|)
  }

  // ---------------------------------------------------------------- writing one lead and one transfer

  ghost predicate FitsTheOthers(db: Db, l: LeadId, lead: Lead, except: Option<TransferId>) {
    forall t: nat :: t < |db.transfers| && db.transfers[t].lead == l && except != Some(t) ==>
      Fits(db.transfers[t], lead)
  }

  ghost predicate StaysApart(db: Db, l: LeadId, lead: Lead) {
    lead.conversation.Some? ==>
      forall m: nat :: m < |db.leads| && m != l ==> db.leads[m].conversation != lead.conversation
  }

  lemma WriteLeadKeepsSound(db: Db, l: LeadId, lead: Lead)
    requires Sound(db) && l < |db.leads| && LeadOk(db.home, lead)
    requires StaysApart(db, l, lead) && FitsTheOthers(db, l, lead, None)
    ensures Sound(db.(leads := db.leads[l := lead]))
  {
    var after := db.(leads := db.leads[l := lead]);
    hide Fits;
    hide LeadOk;
    forall t: nat | t < |after.transfers| ensures TransferOk(after, t) {
      assert TransferOk(db, t);
    }
  }

  lemma AddLeadKeepsSound(db: Db, lead: Lead)
    requires Sound(db) && LeadOk(db.home, lead) && StaysApart(db, |db.leads|, lead)
    ensures Sound(db.(leads := db.leads + [lead]))
  {
    var after := db.(leads := db.leads + [lead]);
    hide Fits;
    hide LeadOk;
    forall t: nat | t < |after.transfers| ensures TransferOk(after, t) {
      assert TransferOk(db, t);
    }
  }

  ghost predicate MayBecome(was: Transfer, row: Transfer) {
    && row.lead == was.lead && row.conversation == was.conversation && row.contact == was.contact
    && (IsOpen(row.status) ==> IsOpen(was.status))
  }

  lemma WriteBothKeepsSound(db: Db, t: TransferId, row: Transfer, lead: Lead)
    requires Sound(db) && t < |db.transfers| && MayBecome(db.transfers[t], row)
    requires row.lead < |db.leads| && LeadOk(db.home, lead) && lead.conversation == db.leads[row.lead].conversation
    requires FitsTheOthers(db, row.lead, lead, Some(t)) && Fits(row, lead)
    requires row.status == Approved ==>
               && !HasApproved(db, row.lead)
               && row.reviewedProof.Some? && row.reviewedProof.value in db.proofs
               && db.proofs[row.reviewedProof.value] == Proof(t, row.conversation)
    ensures Sound(db.(transfers := db.transfers[t := row], leads := db.leads[row.lead := lead]))
  {
    var after := db.(transfers := db.transfers[t := row], leads := db.leads[row.lead := lead]);
    hide LeadOk;
    hide Fits;
    assert TransferOk(db, t);
    forall u: nat | u < |after.transfers| ensures TransferOk(after, u) {
      assert TransferOk(db, u);
    }
  }

  lemma AddTransferKeepsSound(db: Db, row: Transfer, lead: Lead)
    requires Sound(db) && row.lead < |db.leads| && !HasOpen(db, row.lead) && IsOpen(row.status)
    requires LeadOk(db.home, lead) && lead.conversation == db.leads[row.lead].conversation
    requires FitsTheOthers(db, row.lead, lead, None) && Fits(row, lead)
    ensures Sound(db.(transfers := db.transfers + [row], leads := db.leads[row.lead := lead]))
  {
    var after := db.(transfers := db.transfers + [row], leads := db.leads[row.lead := lead]);
    hide LeadOk;
    hide Fits;
    forall u: nat | u < |after.transfers| ensures TransferOk(after, u) {
      if u < |db.transfers| {
        assert TransferOk(db, u);
      }
    }
  }

  lemma RecordProofKeepsSound(db: Db, m: MessageId, t: TransferId, c: ConversationId)
    requires Sound(db) && m !in db.proofs && t < |db.transfers|
    ensures Sound(db.(proofs := db.proofs[m := Proof(t, c)]))
  {
    var after := db.(proofs := db.proofs[m := Proof(t, c)]);
    hide Fits;
    forall u: nat | u < |after.transfers| ensures TransferOk(after, u) {
      assert TransferOk(db, u);
    }
  }

  // ---------------------------------------------------------------- leads

  /** A lead without a conversation has no transfer, and neither has one that is new or contacted. */
  lemma NoTransfersYet(db: Db, l: LeadId)
    requires Sound(db) && l < |db.leads| && (db.leads[l].conversation.None? || IsPromotable(db.leads[l].stage))
    ensures forall t: nat :: t < |db.transfers| ==> db.transfers[t].lead != l
  {
    forall t: nat | t < |db.transfers| ensures db.transfers[t].lead != l {
      assert TransferOk(db, t);
    }
  }

  lemma CreateLeadKeepsSound(db: Db, contact: ContactId, linked: bool, stage: Stage)
    requires Sound(db)
    ensures Sound(Apply(db, DoCreateLead(contact, linked, stage)))
  {
    var op := DoCreateLead(contact, linked, stage);
    if Attempt(db, op).Done? {
      AddLeadKeepsSound(db, NewLead(contact, if linked then Some(db.home[contact]) else None, stage));
    }
  }

  lemma LinkKeepsSound(db: Db, contact: ContactId)
    requires Sound(db)
    ensures Sound(Apply(db, DoFindOrCreate(contact)))
  {
    if Attempt(db, DoFindOrCreate(contact)).Done? {
      var c := db.home[contact];
      var existing := FindLead(db, contact, None, |db.leads|);
      if existing.None? {
        AddLeadKeepsSound(db, NewLead(contact, Some(c), New));
      } else if db.leads[existing.value].conversation != Some(c) {
        var l := existing.value;
        assert LeadOk(db.home, db.leads[l]);
        NoTransfersYet(db, l);
        WriteLeadKeepsSound(db, l, db.leads[l].(conversation := Some(c)));
      }
    }
  }

  lemma PromoteKeepsSound(db: Db, l: LeadId, stage: Stage, conversation: Option<ConversationId>)
    requires Sound(db) && l < |db.leads| && IsPromotable(db.leads[l].stage) && stage in {Contacted, Qualified}
    requires conversation == db.leads[l].conversation
          || (db.leads[l].contact in db.home && conversation == Some(db.home[db.leads[l].contact])
                && !Linked(db, conversation.value))
    ensures Sound(db.(leads := db.leads[l := db.leads[l].(stage := stage, conversation := conversation)]))
  {
    var lead := db.leads[l].(stage := stage, conversation := conversation);
    assert LeadOk(db.home, db.leads[l]);
    NoTransfersYet(db, l);
    WriteLeadKeepsSound(db, l, lead);
  }

  lemma QualifyKeepsSound(db: Db, contact: ContactId, hasContext: bool)
    requires Sound(db)
    ensures Sound(Apply(db, DoQualify(contact, hasContext)))
  {
    hide Sound;
    if Attempt(db, DoQualify(contact, hasContext)).Done? {
      var c := db.home[contact];
      var existing := FindLead(db, contact, None, |db.leads|);
      var at := if existing.Some? then db else db.(leads := db.leads + [NewLead(contact, Some(c), New)]);
      var l := if existing.Some? then existing.value else |db.leads|;
      if existing.None? {
        AddLeadKeepsSound(db, NewLead(contact, Some(c), New));
      }
      if IsPromotable(at.leads[l].stage) && hasContext {
        PromoteKeepsSound(at, l, Qualified, Some(c));
      }
    }
  }

  lemma ContactKeepsSound(db: Db, l: LeadId)
    requires Sound(db)
    ensures Sound(Apply(db, DoContact(l)))
  {
    if l < |db.leads| && db.leads[l].stage == New {
      PromoteKeepsSound(db, l, Contacted, db.leads[l].conversation);
    }
  }

  lemma MeetingKeepsSound(db: Db, l: LeadId, contact: ContactId)
    requires Sound(db)
    ensures Sound(Apply(db, DoMeeting(l, contact)))
  {
    if l < |db.leads| && IsPromotable(db.leads[l].stage) && db.leads[l].contact == contact {
      PromoteKeepsSound(db, l, Qualified, db.leads[l].conversation);
    }
  }

  lemma UpdatedLeadFits(db: Db, l: LeadId, change: Change, lead: Lead)
    requires Sound(db) && Update(db, l, change).Done?
    requires lead.conversation == db.leads[l].conversation && lead.contact == db.leads[l].contact
    requires lead.stage == if change.stage.Some? then change.stage.value else db.leads[l].stage
    requires db.leads[l].stage == Won ==> lead.milestone == db.leads[l].milestone
    ensures FitsTheOthers(db, l, lead, None)
  {
    hide RecordWon;
    hide HasDeal;
    hide BreaksMilestone;
    forall t: nat | t < |db.transfers| && db.transfers[t].lead == l ensures Fits(db.transfers[t], lead) {
      assert TransferOk(db, t);
    }
  }

  lemma UpdateKeepsSound(db: Db, l: LeadId, change: Change)
    requires Sound(db)
    ensures Sound(Apply(db, DoUpdate(l, change)))
  {
    if Attempt(db, DoUpdate(l, change)).Done? {
      var lead := Changed(db.leads[l], change);
      assert LeadOk(db.home, db.leads[l]);
      if lead.stage == Won && db.leads[l].stage != Won {
        var won := lead.(milestone := Some(DealOf(lead)));
        UpdatedLeadFits(db, l, change, won);
        WriteLeadKeepsSound(db, l, won);
        assert db.leads[l := lead][l := won] == db.leads[l := won];
      } else {
        UpdatedLeadFits(db, l, change, lead);
        WriteLeadKeepsSound(db, l, lead);
      }
    }
  }

  // ---------------------------------------------------------------- transfers

  /** With no open transfer in its conversation and a stage other than won, a lead can take one. */
  lemma CommitKeepsSound(db: Db, d: Decision)
    requires Sound(db) && d.lead < |db.leads| && db.leads[d.lead].stage != Won
    requires db.leads[d.lead].conversation == Some(d.conversation) && db.leads[d.lead].contact == d.contact
    ensures Sound(Settle(db, Commit(db, d)))
  {
    if Commit(db, d).Done? && OpenOf(db, d.conversation, None).None? {
      var lead := db.leads[d.lead].(stage := PaymentPending);
      var row := Transfer(d.lead, d.conversation, d.contact, d.amount, d.currency, InstructionsPrepared,
            d.source, None, None);
      assert LeadOk(db.home, db.leads[d.lead]);
      forall t: nat | t < |db.transfers| && db.transfers[t].lead == d.lead
        ensures Fits(db.transfers[t], lead) && !IsOpen(db.transfers[t].status)
      {
        assert TransferOk(db, t) && !OpenFor(db, d.conversation, None, t);
      }
      AddTransferKeepsSound(db, row, lead);
    }
  }

  lemma ReconcileKeepsSound(db: Db, source: MessageId, outbound: Option<MessageId>)
    requires Sound(db)
    ensures Sound(Apply(db, DoReconcile(source, outbound)))
  {
    var after := Apply(db, DoReconcile(source, outbound));
    if after != db {
      var t := FindSource(db, source, |db.transfers|).value;
      assert TransferOk(db, t);
      RewriteKeepsSound(db, t, after.transfers[t]);
    }
  }

  /** A transfer's own change that its lead still fits. */
  lemma RewriteKeepsSound(db: Db, t: TransferId, row: Transfer)
    requires Sound(db) && t < |db.transfers| && MayBecome(db.transfers[t], row)
    requires row.status == Approved ==>
          db.transfers[t].status == Approved && row.reviewedProof == db.transfers[t].reviewedProof
    requires row.lead < |db.leads| && Fits(row, db.leads[row.lead])
    ensures Sound(SetTransfer(db, t, row))
  {
    var after := SetTransfer(db, t, row);
    hide LeadOk;
    hide Fits;
    assert TransferOk(db, t);
    forall u: nat | u < |after.transfers| ensures TransferOk(after, u) {
      assert TransferOk(db, u);
    }
  }

  lemma ProofKeepsSound(db: Db, c: ConversationId, contact: ContactId, m: MessageId)
    requires Sound(db)
    ensures Sound(Apply(db, DoProof(c, contact, m)))
  {
    var t := OpenOf(db, c, Some(contact));
    if Attempt(db, DoProof(c, contact, m)).Done? && t.Some? && m !in db.proofs {
      var row := db.transfers[t.value];
      var recorded := db.(proofs := db.proofs[m := Proof(t.value, c)]);
      RecordProofKeepsSound(db, m, t.value, c);
      if !InReview(row.status) {
        assert TransferOk(db, t.value) && LeadOk(db.home, db.leads[row.lead]);
        forall u: nat | u < |db.transfers| && db.transfers[u].lead == row.lead && u != t.value
          ensures Fits(db.transfers[u], db.leads[row.lead].(stage := PaymentReview))
        {
          assert TransferOk(db, u);
        }
        WriteBothKeepsSound(recorded, t.value, row.(status := ProofReceived),
                            db.leads[row.lead].(stage := PaymentReview));
      }
    }
  }

  lemma StartReviewKeepsSound(db: Db, t: TransferId)
    requires Sound(db)
    ensures Sound(Apply(db, DoStartReview(t)))
  {
    if Attempt(db, DoStartReview(t)).Done? {
      assert TransferOk(db, t);
      RewriteKeepsSound(db, t, db.transfers[t].(status := UnderReview));
    }
  }

  lemma ApproveKeepsSound(db: Db, t: TransferId, expected: TransferStatus, proof: MessageId, reference: string)
    requires Sound(db)
    ensures Sound(Apply(db, DoApprove(t, expected, proof, reference)))
  {
    hide Trim;
    var op := DoApprove(t, expected, proof, reference);
    if Attempt(db, op).Done? {
      var row := db.transfers[t];
      assert TransferOk(db, t) && LeadOk(db.home, db.leads[row.lead]);
      var won := db.leads[row.lead].(stage := Won, amount := Some(row.amount), currency := Some(row.currency),
                                     reference := Some(Trim(reference)));
      var lead := won.(milestone := Some(DealOf(won)));
      forall u: nat | u < |db.transfers| && db.transfers[u].lead == row.lead && u != t
        ensures Fits(db.transfers[u], lead) && db.transfers[u].status != Approved
      {
        assert TransferOk(db, u);
      }
      WriteBothKeepsSound(db, t, row.(status := Approved, reviewedProof := Some(proof)), lead);
      assert db.leads[row.lead := won][row.lead := lead] == db.leads[row.lead := lead];
    }
  }

  lemma RejectKeepsSound(db: Db, t: TransferId, expected: TransferStatus, note: string)
    requires Sound(db)
    ensures Sound(Apply(db, DoReject(t, expected, note)))
  {
    hide Trim;
    if Attempt(db, DoReject(t, expected, note)).Done? {
      var row := db.transfers[t];
      assert TransferOk(db, t) && LeadOk(db.home, db.leads[row.lead]);
      var lead := db.leads[row.lead].(stage := PaymentPending);
      forall u: nat | u < |db.transfers| && db.transfers[u].lead == row.lead && u != t
        ensures Fits(db.transfers[u], lead)
      {
        assert TransferOk(db, u);
      }
      WriteBothKeepsSound(db, t, row.(status := Rejected), lead);
    }
  }

  lemma RequestKeepsSound(db: Db, c: ConversationId, contact: ContactId, asks: bool, source: MessageId)
    requires Sound(db)
    ensures Sound(Apply(db, DoRequest(c, contact, asks, source)))
  {
    hide Commit;
    hide Sound;
    var d := Decide(db, c, contact, asks, source);
    if d.Some? {
      CommitKeepsSound(db, d.value);
    }
  }

  lemma ApplyKeepsSound(db: Db, op: Op)
    requires Sound(db)
    ensures Sound(Apply(db, op))
  {
    hide Sound;
    hide Apply;
    match op
    case DoCreateLead(contact, linked, stage) => CreateLeadKeepsSound(db, contact, linked, stage);
    case DoFindOrCreate(contact) => LinkKeepsSound(db, contact);
    case DoContact(l) => ContactKeepsSound(db, l);
    case DoQualify(contact, hasContext) => QualifyKeepsSound(db, contact, hasContext);
    case DoMeeting(l, contact) => MeetingKeepsSound(db, l, contact);
    case DoUpdate(l, change) => UpdateKeepsSound(db, l, change);
    case DoRequest(c, contact, asks, source) => RequestKeepsSound(db, c, contact, asks, source);
    case DoReconcile(source, outbound) => ReconcileKeepsSound(db, source, outbound);
    case DoProof(c, contact, m) => ProofKeepsSound(db, c, contact, m);
    case DoStartReview(t) => StartReviewKeepsSound(db, t);
    case DoApprove(t, expected, proof, reference) => ApproveKeepsSound(db, t, expected, proof, reference);
    case DoReject(t, expected, note) => RejectKeepsSound(db, t, expected, note);
  }

  // ---------------------------------------------------------------- what every run keeps

  function Exec(db: Db, ops: seq<Op>): Db
    decreases |ops|
  {
    if ops == [] then db else Exec(Apply(db, ops[0]), ops[1..])
  }

  lemma {:induction false} EveryRunIsSound(db: Db, ops: seq<Op>)
    requires Sound(db)
    ensures Sound(Exec(db, ops))
    decreases |ops|
  {
    hide Sound;
    hide Apply;
    if ops != [] {
      ApplyKeepsSound(db, ops[0]);
      EveryRunIsSound(Apply(db, ops[0]), ops[1..]);
    }
  }

  /** From empty tables, whatever leads and payments do: a lead, and so its conversation, has at most
      one open transfer and at most one approved one; a transfer under review means the lead is in
      payment review; a won lead has no open transfer; an approved transfer means a won lead whose
      recorded contract is of the transfer's amount and currency, and was approved on a proof sent in
      its own conversation. */
  lemma PaymentsAndLeadsAgree(home: map<ContactId, ConversationId>, ops: seq<Op>, t: TransferId, u: TransferId)
    requires var db := Exec(Db(home, [], [], map[]), ops); t < |db.transfers| && u < |db.transfers|
    ensures var db := Exec(Db(home, [], [], map[]), ops);
            var a, b := db.transfers[t], db.transfers[u];
            && a.lead < |db.leads| && db.leads[a.lead].conversation == Some(a.conversation)
            && (IsOpen(a.status) && IsOpen(b.status) && (a.lead == b.lead || a.conversation == b.conversation) ==>
                  t == u)
            && (a.status == Approved && b.status == Approved && a.lead == b.lead ==> t == u)
            && (InReview(a.status) ==> db.leads[a.lead].stage == PaymentReview)
            && (db.leads[a.lead].stage == Won ==> !IsOpen(a.status))
            && (a.status == Approved ==>
                  && db.leads[a.lead].stage == Won && db.leads[a.lead].milestone.Some?
                  && db.leads[a.lead].milestone.value.amount == a.amount
                  && db.leads[a.lead].milestone.value.currency == a.currency
                  && a.reviewedProof.Some? && a.reviewedProof.value in db.proofs
                  && db.proofs[a.reviewedProof.value] == Proof(t, a.conversation))
  {
    hide Exec;
    var start := Db(home, [], [], map[]);
    EveryRunIsSound(start, ops);
    var db := Exec(start, ops);
    assert TransferOk(db, t) && TransferOk(db, u);
    assert Alike(db.transfers[t], db.transfers[u]) ==> t == u;
    if db.transfers[t].conversation == db.transfers[u].conversation {
      assert db.leads[db.transfers[t].lead].conversation == db.leads[db.transfers[u].lead].conversation;
    }
  }

  /** What one operation may do to one lead. */
  ghost predicate LeadStep(lead: Lead, after: Lead) {
    && after.contact == lead.contact && (lead.conversation.Some? ==> after.conversation == lead.conversation)
    && (!IsPromotable(lead.stage) ==> !IsPromotable(after.stage))
    && (lead.stage == Won ==> after.stage == Won && after.milestone == lead.milestone)
    && KeepsDealFields(lead, after)
  }

  /** What has been filled in stays filled in. */
  ghost predicate KeepsDealFields(lead: Lead, after: Lead) {
    && (lead.amount.Some? ==> after.amount.Some?) && (lead.currency.Some? ==> after.currency.Some?)
    && (lead.reference.Some? ==> after.reference.Some?)
  }

  lemma LeadsOnlyStep(db: Db, op: Op, l: LeadId)
    requires Sound(db) && l < |db.leads| && !op.DoProof? && !op.DoApprove? && !op.DoReject?
          && !op.DoRequest? && !op.DoUpdate?
    ensures l < |Apply(db, op).leads| && LeadStep(db.leads[l], Apply(db, op).leads[l])
  {
    assert LeadOk(db.home, db.leads[l]);
    hide Sound;
  }

  lemma UpdateStep(db: Db, op: Op, l: LeadId)
    requires Sound(db) && l < |db.leads| && op.DoUpdate?
    ensures l < |Apply(db, op).leads| && LeadStep(db.leads[l], Apply(db, op).leads[l])
  {
    assert LeadOk(db.home, db.leads[l]);
    hide HasOpen;
    hide Sound;
    hide HasDeal;
  }

  lemma PaymentStep(db: Db, op: Op, l: LeadId)
    requires Sound(db) && l < |db.leads| && (op.DoProof? || op.DoApprove? || op.DoReject?)
    ensures l < |Apply(db, op).leads| && LeadStep(db.leads[l], Apply(db, op).leads[l])
  {
    hide Trim;
    assert LeadOk(db.home, db.leads[l]);
    match op
    case DoProof(c, contact, m) =>
      var t := OpenOf(db, c, Some(contact));
      if t.Some? {
        assert TransferOk(db, t.value);
      }
    case DoApprove(t, _, _, _) =>
      if t < |db.transfers| {
        assert TransferOk(db, t);
      }
    case DoReject(t, _, _) =>
      if t < |db.transfers| {
        assert TransferOk(db, t);
      }
  }

  lemma RequestStep(db: Db, op: Op, l: LeadId)
    requires Sound(db) && l < |db.leads| && op.DoRequest?
    ensures l < |Apply(db, op).leads| && LeadStep(db.leads[l], Apply(db, op).leads[l])
  {
    hide Sound;
    hide HasApproved;
  }

  lemma ApplyStep(db: Db, op: Op, l: LeadId)
    requires Sound(db) && l < |db.leads|
    ensures l < |Apply(db, op).leads| && LeadStep(db.leads[l], Apply(db, op).leads[l])
  {
    hide Sound;
    hide Apply;
    match op
    case DoUpdate(_, _) => UpdateStep(db, op, l);
    case DoRequest(_, _, _, _) => RequestStep(db, op, l);
    case DoProof(_, _, _) => PaymentStep(db, op, l);
    case DoApprove(_, _, _, _) => PaymentStep(db, op, l);
    case DoReject(_, _, _) => PaymentStep(db, op, l);
    case _ => LeadsOnlyStep(db, op, l);
  }

  /** A won lead stays won, with the same recorded contract, through every run. */
  lemma {:induction false} WonIsForever(db: Db, ops: seq<Op>, l: LeadId)
    requires Sound(db) && l < |db.leads| && db.leads[l].stage == Won
    ensures var after := Exec(db, ops).leads;
            l < |after| && after[l].stage == Won && after[l].milestone == db.leads[l].milestone
    decreases |ops|
  {
    hide Sound;
    hide Apply;
    if ops != [] {
      ApplyStep(db, ops[0], l);
      ApplyKeepsSound(db, ops[0]);
      WonIsForever(Apply(db, ops[0]), ops[1..], l);
    }
  }

  /** An operator closes the deal by hand. */
  ghost predicate WonByHand(db: Db, op: Op, l: LeadId)
    requires l < |db.leads|
  {
    && op.DoUpdate? && op.lead == l && op.change.stage == Some(Won) && db.leads[l].stage in {Proposal, Negotiation}
    && !HasOpen(db, l) && HasDeal(Changed(db.leads[l], op.change))
  }

  /** A reviewed transfer of the lead is approved. */
  ghost predicate WonByTransfer(db: Db, op: Op, l: LeadId) {
    && op.DoApprove? && op.t < |db.transfers| && db.transfers[op.t].lead == l
    && InReview(db.transfers[op.t].status) && db.transfers[op.t].status == op.expected && Trim(op.reference) != ""
    && op.proof in db.proofs && db.proofs[op.proof] == Proof(op.t, db.transfers[op.t].conversation)
  }

  lemma UpdateWins(db: Db, op: Op, l: LeadId)
    requires Sound(db) && l < |db.leads| && db.leads[l].stage != Won && op.DoUpdate?
    ensures l < |Apply(db, op).leads| && (Apply(db, op).leads[l].stage == Won <==> WonByHand(db, op, l))
  {
    assert LeadOk(db.home, db.leads[l]);
    hide Sound;
    hide HasOpen;
    hide HasDeal;
    if op.lead == l && op.lead < |db.leads| && HasDeal(Changed(db.leads[l], op.change)) {
      HasDealIsComplete(Changed(db.leads[l], op.change));
    }
  }

  lemma HasDealIsComplete(lead: Lead)
    requires HasDeal(lead)
    ensures lead.amount.Some? && lead.amount.value > 0 && lead.currency.Some? && lead.reference.Some?
  {
  }

  lemma ApprovalWins(db: Db, op: Op, l: LeadId)
    requires Sound(db) && l < |db.leads| && db.leads[l].stage != Won && op.DoApprove?
    ensures l < |Apply(db, op).leads| && (Apply(db, op).leads[l].stage == Won <==> WonByTransfer(db, op, l))
  {
    hide Trim;
    if op.t < |db.transfers| {
      assert TransferOk(db, op.t) && LeadOk(db.home, db.leads[db.transfers[op.t].lead]);
    }
    hide Sound;
  }

  lemma NothingElseWins(db: Db, op: Op, l: LeadId)
    requires l < |db.leads| && db.leads[l].stage != Won && !op.DoUpdate? && !op.DoApprove?
    ensures l < |Apply(db, op).leads| && Apply(db, op).leads[l].stage != Won
  {
    hide HasApproved;
    hide Linked;
  }

  /** A lead is won in two ways only, and always in these two: by hand, from a proposal or a negotiation
      with a complete deal and no open transfer, or by approving a transfer under review on a proof of
      its own. The deal is then recorded. */
  lemma HowALeadIsWon(db: Db, op: Op, l: LeadId)
    requires Sound(db) && l < |db.leads| && db.leads[l].stage != Won
    ensures l < |Apply(db, op).leads|
    ensures Apply(db, op).leads[l].stage == Won <==> WonByHand(db, op, l) || WonByTransfer(db, op, l)
    ensures Apply(db, op).leads[l].stage == Won <==> Apply(db, op).leads[l].milestone.Some?
  {
    ApplyKeepsSound(db, op);
    hide Apply;
    if op.DoUpdate? {
      UpdateWins(db, op, l);
    } else if op.DoApprove? {
      ApprovalWins(db, op, l);
    } else {
      NothingElseWins(db, op, l);
    }
    assert LeadOk(Apply(db, op).home, Apply(db, op).leads[l]);
  }

  // ---------------------------------------------------------------- transfers only move forward

  function Progress(s: TransferStatus): nat {
    match s
    case InstructionsPrepared => 0
    case InstructionsSent => 1
    case ProofReceived => 2
    case UnderReview => 3
    case _ => 4
  }

  predicate IsDecided(s: TransferStatus) {
    s in {Approved, Rejected}
  }

  /** What may become of a transfer: what it is for stays, it never moves back, and once it is decided
      only the message of its instructions may still be filled in. */
  ghost predicate Forward(was: Transfer, row: Transfer) {
    && row == was.(status := row.status, instructions := row.instructions, reviewedProof := row.reviewedProof)
    && Progress(was.status) <= Progress(row.status)
    && (was.instructions.Some? ==> row.instructions == was.instructions)
    && (IsDecided(was.status) ==> row.status == was.status && row.reviewedProof == was.reviewedProof)
  }

  ghost predicate AllForward(before: seq<Transfer>, after: seq<Transfer>) {
    |before| <= |after| && forall t: nat :: t < |before| ==> Forward(before[t], after[t])
  }

  lemma ForwardTwice(a: seq<Transfer>, b: seq<Transfer>, c: seq<Transfer>)
    requires AllForward(a, b) && AllForward(b, c)
    ensures AllForward(a, c)
  {
    forall t: nat | t < |a| ensures Forward(a[t], c[t]) {
      assert Forward(a[t], b[t]) && Forward(b[t], c[t]);
    }
  }

  lemma CommitForward(db: Db, d: Decision)
    ensures AllForward(db.transfers, Settle(db, Commit(db, d)).transfers)
  {
  }

  lemma LeadOpsLeaveTransfers(db: Db, op: Op)
    requires op.DoCreateLead? || op.DoFindOrCreate? || op.DoContact? || op.DoQualify? || op.DoMeeting? || op.DoUpdate?
    ensures Apply(db, op).transfers == db.transfers
  {
    hide HasOpen;
    hide Linked;
  }

  lemma SetForward(transfers: seq<Transfer>, t: TransferId, row: Transfer)
    requires t < |transfers| && Forward(transfers[t], row)
    ensures AllForward(transfers, transfers[t := row])
  {
    hide Forward;
    forall u: nat | u < |transfers| ensures Forward(transfers[u], transfers[t := row][u]) {
      SameForward(transfers[u]);
    }
  }

  lemma SameForward(row: Transfer)
    ensures Forward(row, row)
  {
  }

  lemma DecisionForward(db: Db, op: Op)
    requires op.DoApprove? || op.DoReject?
    ensures AllForward(db.transfers, Apply(db, op).transfers)
  {
    hide Trim;
    hide AllForward;
    var after := Apply(db, op).transfers;
    if after != db.transfers {
      SetForward(db.transfers, op.t, after[op.t]);
    } else {
      AllSame(db.transfers);
    }
  }

  lemma AllSame(transfers: seq<Transfer>)
    ensures AllForward(transfers, transfers)
  {
  }

  lemma ReceivingForward(db: Db, op: Op)
    requires op.DoReconcile? || op.DoProof? || op.DoStartReview?
    ensures AllForward(db.transfers, Apply(db, op).transfers)
  {
  }

  lemma ApplyForward(db: Db, op: Op)
    ensures AllForward(db.transfers, Apply(db, op).transfers)
  {
    match op
    case DoRequest(c, contact, asks, source) =>
      hide Commit;
      var d := Decide(db, c, contact, asks, source);
      if d.Some? {
        CommitForward(db, d.value);
      }
    case _ =>
      hide Apply;
      if op.DoReconcile? || op.DoProof? || op.DoStartReview? {
        ReceivingForward(db, op);
      } else if op.DoApprove? || op.DoReject? {
        DecisionForward(db, op);
      } else {
        LeadOpsLeaveTransfers(db, op);
      }
  }

  /** Through every run a transfer only moves forward, and an approved or rejected one stays so. */
  lemma {:induction false} TransfersOnlyMoveForward(db: Db, ops: seq<Op>)
    ensures AllForward(db.transfers, Exec(db, ops).transfers)
    decreases |ops|
  {
    hide Apply;
    if ops != [] {
      ApplyForward(db, ops[0]);
      TransfersOnlyMoveForward(Apply(db, ops[0]), ops[1..]);
      ForwardTwice(db.transfers, Apply(db, ops[0]).transfers, Exec(db, ops).transfers);
    }
  }

  /** At most one transfer of a lead is ever approved: one that is approved at some time and one that is
      approved at any later time are the same. */
  lemma AtMostOneIsEverApproved(db: Db, ops: seq<Op>, t: TransferId, u: TransferId)
    requires Sound(db) && t < |db.transfers| && db.transfers[t].status == Approved
    requires u < |Exec(db, ops).transfers| && Exec(db, ops).transfers[u].status == Approved
    requires Exec(db, ops).transfers[u].lead == db.transfers[t].lead
    ensures t == u
  {
    var after := Exec(db, ops);
    EveryRunIsSound(db, ops);
    TransfersOnlyMoveForward(db, ops);
    assert Forward(db.transfers[t], after.transfers[t]);
    assert Alike(after.transfers[t], after.transfers[u]);
  }
}
