/** Leads, transfers and proofs as the two services update them in place, one transaction a method. */
module PaymentStores {
  import opened Options
  import opened Payments
  import opened PaymentSafety

  /** A transaction either commits what the operation says or is refused and changes nothing. */
  ghost predicate Settled(before: Db, outcome: Outcome, after: Db, refusal: Option<Refusal>) {
    match outcome
    case Done(db) => after == db && refusal == None
    case Refused(why) => after == before && refusal == Some(why)
  }

  class PaymentStore {
    const home: map<ContactId, ConversationId>
    var leads: seq<Lead>
    var transfers: seq<Transfer>
    var proofs: map<MessageId, Proof>

    constructor (home: map<ContactId, ConversationId>)
      ensures Consistent() && Contents() == Db(home, [], [], map[])
    {
      this.home := home;
      leads, transfers, proofs := [], [], map[];
    }

    function Contents(): Db
      reads this
    {
      Db(home, leads, transfers, proofs)
    }

    ghost predicate Consistent()
      reads this
    {
      Sound(Contents())
    }

    method WriteLead(l: LeadId, lead: Lead)
      requires l < |leads|
      modifies `leads
      ensures leads == old(leads)[l := lead]
    {
      leads := leads[l := lead];
    }

    method WriteTransfer(t: TransferId, row: Transfer)
      requires t < |transfers|
      modifies `transfers
      ensures transfers == old(transfers)[t := row]
    {
      transfers := transfers[t := row];
    }

    method UpdateLead(l: LeadId, change: Change) returns (refusal: Option<Refusal>)
      requires Consistent()
      modifies `leads
      ensures Consistent() && Settled(old(Contents()), Update(old(Contents()), l, change), Contents(), refusal)
    {
      ghost var before := Contents();
      hide HasDeal;
      hide BreaksMilestone;
      hide Sound;
      ApplyKeepsSound(before, DoUpdate(l, change));
      if l >= |leads| { return Some(NotFound); }
      var lead := leads[l];
      var next := if change.stage.Some? then change.stage.value else lead.stage;
      if lead.stage == PaymentReview && next != lead.stage { return Some(ReviewPending); }
      if next == Won && lead.stage != Won && HasOpen(Contents(), l) { return Some(TransferOpen); }
      if next == PaymentPending && lead.stage != PaymentPending && !HasOpen(Contents(), l) {
        return Some(NoTransferOpen);
      }
      if BreaksMilestone(lead, change) { return Some(MilestoneImmutable); }
      if next != lead.stage && next !in AllowedFrom(lead.stage) { return Some(TransitionNotAllowed); }
      var written := Changed(lead, change);
      if next == Won && lead.stage != Won {
        if !HasDeal(written) { return Some(DealIncomplete); }
        var deal := DealOf(written) by { HasDealIsComplete(written); }
        if written.milestone.Some? && written.milestone.value != deal { return Some(MilestoneImmutable); }
        WriteLead(l, written.(milestone := Some(deal)));
        assert before.leads[l := written][l := written.(milestone := Some(deal))] == leads;
      } else {
        WriteLead(l, written);
      }
      refusal := None;
    }

    /** The commit of `maybeSendInstructions`; a lead that is won meanwhile is not looked at again. */
    method CommitInstructions(d: Decision) returns (refusal: Option<Refusal>)
      modifies `leads, `transfers
      ensures Settled(old(Contents()), Commit(old(Contents()), d), Contents(), refusal)
      ensures OpenOf(old(Contents()), d.conversation, None).Some? ==>
                refusal == None && leads == old(leads) && transfers == old(transfers)
      ensures refusal == None && OpenOf(old(Contents()), d.conversation, None).None? ==>
                && d.lead < |old(leads)| && leads == old(leads)[d.lead := old(leads)[d.lead].(stage := PaymentPending)]
                && transfers == old(transfers) + [Transfer(d.lead, d.conversation, d.contact, d.amount, d.currency,
                                                           InstructionsPrepared, d.source, None, None)]
    {
      if OpenOf(Contents(), d.conversation, None).Some? { return None; }
      if SourceUsed(Contents(), d.source) { return Some(SourceTaken); }
      if d.lead >= |leads| { return Some(NotFound); }
      var row := Transfer(d.lead, d.conversation, d.contact, d.amount, d.currency, InstructionsPrepared,
                          d.source, None, None);
      transfers := transfers + [row];
      WriteLead(d.lead, leads[d.lead].(stage := PaymentPending));
      refusal := None;
    }

    method ReconcileInstruction(source: MessageId, outbound: Option<MessageId>)
      requires Consistent()
      modifies `transfers
      ensures Consistent() && Reconcile(old(Contents()), source, outbound) == Done(Contents())
      ensures |transfers| == |old(transfers)|
      ensures transfers != old(transfers) ==>
                exists t: nat :: t < |transfers|
                  && old(transfers)[t].source == source && old(transfers)[t].instructions == None && outbound.Some?
                  && transfers == old(transfers)[t := old(transfers)[t].(instructions := outbound,
                       status := if old(transfers)[t].status == InstructionsPrepared then InstructionsSent
                                 else old(transfers)[t].status)]
      ensures transfers == old(transfers) ==>
                || outbound == None || (forall t: nat :: t < |transfers| ==> transfers[t].source != source)
                || exists t: nat :: t < |transfers| && transfers[t].source == source && transfers[t].instructions.Some?
    {
      ghost var before := Contents();
      hide Sound;
      ApplyKeepsSound(before, DoReconcile(source, outbound));
      var t := FindSource(Contents(), source, |transfers|);
      if t.None? || transfers[t.value].instructions.Some? || outbound.None? { return; }
      var row := transfers[t.value];
      if row.status == InstructionsPrepared {
        WriteTransfer(t.value, row.(instructions := outbound, status := InstructionsSent));
      } else {
        WriteTransfer(t.value, row.(instructions := outbound));
      }
    }

    method RecordProof(c: ConversationId, contact: ContactId, m: MessageId) returns (refusal: Option<Refusal>)
      requires Consistent()
      modifies this
      ensures Consistent() && Settled(old(Contents()), DetectProof(old(Contents()), c, contact, m), Contents(), refusal)
      ensures refusal == None
      ensures match OpenOf(old(Contents()), c, Some(contact))
              case None => leads == old(leads) && transfers == old(transfers) && proofs == old(proofs)
              case Some(t) =>
                if m in old(proofs) then leads == old(leads) && transfers == old(transfers) && proofs == old(proofs)
                else
                  var row := old(transfers)[t];
                  && proofs == old(proofs)[m := Proof(t, c)]
                  && (row.status in {ProofReceived, UnderReview} ==> leads == old(leads) && transfers == old(transfers))
                  && (row.status in {InstructionsPrepared, InstructionsSent} ==>
                        && row.lead < |old(leads)| && transfers == old(transfers)[t := row.(status := ProofReceived)]
                        && leads == old(leads)[row.lead := old(leads)[row.lead].(stage := PaymentReview)])
    {
      ghost var before := Contents();
      ApplyKeepsSound(before, DoProof(c, contact, m));
      var open := OpenOf(Contents(), c, Some(contact));
      if open.None? || m in proofs { return None; }
      var t := open.value;
      var row := transfers[t];
      assert TransferOk(before, t);
      hide Sound;
      proofs := proofs[m := Proof(t, c)];
      if !InReview(row.status) {
        WriteTransfer(t, row.(status := ProofReceived));
        WriteLead(row.lead, leads[row.lead].(stage := PaymentReview));
      }
      refusal := None;
    }

    method BeginReview(t: TransferId) returns (refusal: Option<Refusal>)
      requires Consistent()
      modifies `transfers
      ensures Consistent() && Settled(old(Contents()), StartReview(old(Contents()), t), Contents(), refusal)
      ensures refusal == None <==> t < |old(transfers)| && old(transfers)[t].status in {ProofReceived, UnderReview}
      ensures refusal == None ==> transfers == old(transfers)[t := old(transfers)[t].(status := UnderReview)]
    {
      hide Sound;
      ApplyKeepsSound(Contents(), DoStartReview(t));
      if t >= |transfers| { return Some(NotFound); }
      if !InReview(transfers[t].status) { return Some(StatusChanged); }
      WriteTransfer(t, transfers[t].(status := UnderReview));
      refusal := None;
    }

    method ApproveTransfer(t: TransferId, expected: TransferStatus, proof: MessageId, reference: string)
      returns (refusal: Option<Refusal>)
      requires Consistent()
      modifies `leads, `transfers
      ensures Consistent()
      ensures Settled(old(Contents()), Approve(old(Contents()), t, expected, proof, reference), Contents(), refusal)
      ensures refusal == Some(ReferenceMissing) <==> Trim(reference) == ""
      ensures refusal == None <==>
                && Trim(reference) != "" && t < |old(transfers)| && old(transfers)[t].status == expected
                && expected in {ProofReceived, UnderReview}
                && proof in proofs && proofs[proof] == Proof(t, old(transfers)[t].conversation)
      ensures refusal == None ==>
                var row := old(transfers)[t];
                && transfers == old(transfers)[t := row.(status := Approved, reviewedProof := Some(proof))]
                && row.lead < |old(leads)|
                && leads == old(leads)[row.lead := old(leads)[row.lead].(
                     stage := Won, amount := Some(row.amount), currency := Some(row.currency),
                     reference := Some(Trim(reference)),
                     milestone := Some(Deal(row.amount, row.currency, Trim(reference))))]
    {
      if t < |transfers| {
        assert TransferOk(Contents(), t) && LeadOk(home, leads[transfers[t].lead]);
      }
      hide Sound;
      hide Trim;
      ApplyKeepsSound(Contents(), DoApprove(t, expected, proof, reference));
      if Trim(reference) == "" { return Some(ReferenceMissing); }
      if t >= |transfers| { return Some(NotFound); }
      var row := transfers[t];
      if row.status != expected || !InReview(row.status) { return Some(StatusChanged); }
      if proof !in proofs || proofs[proof] != Proof(t, row.conversation) { return Some(ForeignProof); }
      if row.lead >= |leads| || leads[row.lead].stage != PaymentReview { return Some(StageChanged); }
      var won := leads[row.lead].(stage := Won, amount := Some(row.amount), currency := Some(row.currency),
                                  reference := Some(Trim(reference)));
      var deal := Some(DealOf(won));
      if won.milestone != None && won.milestone != deal { return Some(MilestoneImmutable); }
      ghost var was := leads;
      WriteLead(row.lead, won.(milestone := deal));
      WriteTransfer(t, row.(status := Approved, reviewedProof := Some(proof)));
      assert was[row.lead := won][row.lead := won.(milestone := Some(DealOf(won)))] == leads;
      refusal := None;
    }

    method RejectTransfer(t: TransferId, expected: TransferStatus, note: string) returns (refusal: Option<Refusal>)
      requires Consistent()
      modifies `leads, `transfers
      ensures Consistent() && Settled(old(Contents()), Reject(old(Contents()), t, expected, note), Contents(), refusal)
      ensures refusal == Some(NoteMissing) <==> Trim(note) == ""
      ensures refusal == None <==>
                && Trim(note) != "" && t < |old(transfers)| && old(transfers)[t].status == expected
                && expected in {ProofReceived, UnderReview}
      ensures refusal == None ==>
                var row := old(transfers)[t];
                && transfers == old(transfers)[t := row.(status := Rejected)] && row.lead < |old(leads)|
                && leads == old(leads)[row.lead := old(leads)[row.lead].(stage := PaymentPending)]
    {
      if t < |transfers| {
        assert TransferOk(Contents(), t);
      }
      hide Sound;
      hide Trim;
      ApplyKeepsSound(Contents(), DoReject(t, expected, note));
      if Trim(note) == "" { return Some(NoteMissing); }
      if t >= |transfers| { return Some(NotFound); }
      var row := transfers[t];
      if row.status != expected || !InReview(row.status) { return Some(StatusChanged); }
      if row.lead >= |leads| { return Some(NotFound); }
      WriteTransfer(t, row.(status := Rejected));
      WriteLead(row.lead, leads[row.lead].(stage := PaymentPending));
      refusal := None;
    }
  }
}
