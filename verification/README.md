# Verified models of the Hermes backend

Hermes is a WhatsApp CRM backend: it answers customers automatically, hands conversations over to
human operators, takes bank transfers, and runs campaigns. Much of its correctness rests on small
protocols over shared database rows that many workers update at once, and on a few self-contained
algorithms. This project models those protocols and algorithms in Dafny and proves what they keep.

## What is modelled

- **Automated deliveries** (`Deliveries`, `DeliveryRuns`, `DeliverySafety`, `DeliveryGuarantees`,
  `DeliveryOutcomes`, `DeliveryOrder`, `DeliveryProgressSteps`, `DeliveryProgress`, `DeliveryReturns`,
  `DeliveryStore`). Each part of a reply is a row that goes through PREPARED, DISPATCHING and a
  terminal status under a claim token and a 60 second lease.
  `DeliveryRuns` is a step relation over a whole world: any number of batch runs and human replies,
  the expiry sweeper, repeated prepares, handoff and conversation operations, crashes, lock timeouts
  and the clock. Every call to Meta goes to a log together with the conversations as they were then.
- **Conversations and handoffs** (`Conversations`, `ConversationInterleavings`, `ConversationStore`): the
  writes of the handoff service, the conversations service and the webhook on one conversation and
  its handoffs.
- **Inbound turns** (`InboundTurns`, `InboundTurnTiming`): the debounce window with its maximum wait, then leases with
  fencing tokens, recovery and rechecks.
- **Payments and leads** (`Payments`, `PaymentSafety`, `PaymentEffects`, `PaymentInterleavings`,
  `PaymentStore`): the two services that write one lead's stage, and what they read before they take
  their locks.
- **Campaigns** (`CampaignCallbacks`, `Campaigns`, `CampaignEffects`, `CampaignExhaustion`,
  `CampaignStories`, `CampaignStore`): at most one effective template message a recipient and none
  without consent, what callbacks out of order lead to, and what stale reads and exhausted retries do.
- **Webhook inbox** (`WebhookInbox`): durable events, leases, scanners.
- **Message splitter** (`Splitter`, `SplitterCovers`, `SplitterTheorems`, `SplitterMeaning`), **click
  references** (`References`, `ReferenceNumbers`, `ReferenceSearch`, `Int32Operators`), **amounts of
  money** (`Amounts`, `NumberTexts`) and **settled questions** (`Resolutions`): algorithms on texts.

Where the program changes rows in place, a class holds the rows (`ConversationStore`,
`DeliveryStore`, `InboundTurnStore`, `PaymentStore`, `CampaignStore`, `InboxStore`) and its methods
follow the program's order of tests and writes; each is proved equal to a function on values and says,
field by field and with the program's constants, what it leaves. The lemmas are about those
functions, over all inputs, all runs or all interleavings.

## Conventions

- One database transaction, or one conditional update, is one atomic step. A section that keeps an
  advisory lock over several transactions keeps it as explicit state: one lock a conversation, held
  by a batch run or a human reply. Operations on leads and transfers take different locks (by contact,
  by conversation, by transfer), which do not exclude each other: they are single steps by convention,
  and only the two that decide on rows read before their lock are also modelled with reads and
  writes apart. The exact conditions in `PaymentInterleavings` are relative to that. So is an inbound
  message's resumption a single step but for `ConversationInterleavings`. What campaigns do without a
  transaction has its reads and writes of recipients apart: starts, send jobs, callbacks and replies.
- The clock never goes back, and a step reads it itself. In the program scheduling and claiming an
  inbound turn read it before they wait for their lock or row; what an old reading can do to a turn's
  due time is `OldReadingMovesDueBackIff`. Tokens and run numbers are fresh. Row ids are positions, since no
  modelled operation deletes a row.
- Meta is an oracle: any call may be accepted, answered 429, rejected, or remain ambiguous, and any
  process may crash at any point.
- The statements about order need the lock: they are for runs in which no transaction timed out. The
  statements about at most one send do not; `DeliveryGuarantees` also allows timeouts.
- Texts are sequences of UTF-16 code units in the splitter, and of characters elsewhere. Amounts are
  in cents. JavaScript's 32-bit operators are written out on integers.
- The classification of a clause by the commercial policy is a parameter of any value.

## Results that differ from what one might expect

- `maybeSendInstructions` decides before it takes its lock, and `LeadsService.update` checks lead and
  transfers before it takes its own, which is another. All promises about transfers and stages hold
  over an interleaving if and only if no commit finds its lead won since the decision and no update is
  overtaken between its reads and its write (`SafeIffNothingComesTooLate`). `TwoApprovedTransfers` is
  a run in which a lead leaves WON and ends with two approved transfers; in `LateUpdateLosesAWonLead`
  a lead whose transfer was approved ends LOST.
- `recoverable` finds all turns that a claim accepts if and only if there are at most a hundred
  (`RecoveryIsExactUpToItsCap`); `ABurstOverflowsRecovery` is a run to more.
- A message whose scheduling waits for its lock while a later one is scheduled moves the turn's due
  time back, if and only if the turn was due later than the debounce after its own clock reading
  (`OldReadingMovesDueBackIff`).
- A job that fails to claim its turn at the very instant the lease ends, or between whose two clock
  readings the time to come back passes, is not queued again; the recovery scan picks the turn up
  (`JobsComeBackUnlessItIsTimeAlready`); `GivesUpAtTheEndOfALease` is a run to such an instant.
- Callbacks are confluent if and only if some top-ranked callback is at least as late as every
  lower-ranked one; that is weaker than agreement of all timestamps with the ranks
  (`ConfluentIffTopIsLatest`).
- The rank of a recipient's status can fall, in exactly three ways (`RankFallsIff`): a start queues it
  that had read it before it came further, as in the run `StaleStartQueuesAgain`; the accepted answer
  is stored after something else has settled it; or a callback is written that decided on an earlier
  status, as in the run `StaleCallbackRevivesAFailure`. The claim still prevents a second call. A
  message that Meta accepted is recorded FAILED if the check for the campaign's completion throws
  after it was recorded SENT (`ProcessSendJob`).
- A recipient whose job has exhausted its retries is FAILED, and is never called again unless a start
  queues it, if and only if no duplicate of the job has it claimed (`ExhaustedIsNotCalledAgainIff`);
  in the run `DuplicateCallsAfterTheLastRetry` one has.
- An inbound message resumes a closed conversation under a lock by contact, which excludes none of the
  operations by conversation. Conversations and handoffs agree over an interleaving if and only if no
  resumption comes after the conversation has been handed over (`ValidIffNoneComesTooLate`); in the
  run `LateResumptionLocksTheOperatorOut` one does.
- `text.indexOf(clause, offset)` finds a clause where it stands if and only if the clause does not
  occur earlier, from its separator on (`FoundWhereItStandsIff`, `AllFoundIff`);
  `RepeatedConjunctionIsMislocated` is a reply in which it does.
- Repeating a delivery together with its turn profile writes nothing if and only if the profile holds
  no null or empty value and no absent value of a stored field (`RepeatWithProfileWritesNothingIff`).
- The splitter's fallback is the better packing only without words longer than a part may be: with one
  the first packing can suffice where the second does not (`FirstPackingMayBeBetter`).
- The splitter's length bound can be raised: a text never fails below
  ((maxParts+1)/2)·(maxPartChars+2) - 1 code units (`ShortTextNeverFails`).

## Model

| member | source | states |
|---|---|---|
| DeliveryGuarantees.AtMostOneEffectiveSend | hermes-backend/src/automated-deliveries/automated-delivery.service.ts:217-541 | in every interleaving, also with lock timeouts, a delivery row has at most one call to Meta that was not answered 429 |
| DeliveryGuarantees.ConfirmedRowsAreTheMessages | hermes-backend/src/automated-deliveries/automated-delivery.service.ts:446-494 | confirmed rows and outbound messages are in bijection, and a confirmed row carries the wamid of an accepted call for it |
| DeliveryOutcomes.OutcomeFollowsTheAnswer | hermes-backend/src/automated-deliveries/automated-delivery.service.ts:446-541 | in every interleaving, the row of a call that was not answered 429 ends as the answer says: REJECTED only after a definitive rejection and with its code, CONFIRMED only after an accepted call; a row whose call was accepted or ambiguous is never REJECTED |
| DeliveryOutcomes.UncalledRowsDoNotEnd | hermes-backend/src/automated-deliveries/automated-delivery.service.ts:149-212 | in every interleaving, a row without such a call is neither CONFIRMED nor REJECTED, and a SUPPRESSED row has none |
| DeliveryReturns.EveryReturnSaysWhy | hermes-backend/src/automated-deliveries/automated-delivery.service.ts:134-215 | in every interleaving, a run that returns has no part left and gives no reason, or gives the reason of the part that stopped it and says truly whether that has come to an end |
| DeliveryReturns.PartGetsThrough | hermes-backend/src/automated-deliveries/automated-delivery.service.ts:111-215 | a prepared part that may be sent is called once, confirmed by one message and counted, if nobody comes in between and Meta accepts it; the lock is free again |
| DeliveryReturns.RateLimitedPartMayBeRunAgain | hermes-backend/src/automated-deliveries/automated-delivery.service.ts:149-215 | after a 429 the part is prepared again with one attempt more, the lock is free, and its batch can be run again at once |
| DeliveryReturns.PreparingMakesStartable | hermes-backend/src/automated-deliveries/automated-delivery.service.ts:61-81 | the first part of a source can be started as soon as it is prepared |
| DeliveryReturns.CrashesAndTimeouts | hermes-backend/src/automated-deliveries/automated-delivery.service.ts:111-132 | a crash ends the run and frees its lock without touching a row; a transaction timeout frees the lock alone, and another run may start beside the one that goes on |
| DeliveryReturns.ReplyGetsThrough | hermes-backend/src/conversations/conversations.service.ts:395-492 | an authorised operator calls Meta once, under the conversation lock from the authorisation to the end |
| DeliveryGuarantees.TokenAndLeaseMeanDispatching | hermes-backend/src/automated-deliveries/automated-delivery.service.ts:217-541 | in every reachable state token and lease are set exactly while a row is DISPATCHING |
| DeliveryGuarantees.TerminalRowsNeverChange | hermes-backend/src/automated-deliveries/automated-delivery.service.ts:217-541 | a CONFIRMED, REJECTED, AMBIGUOUS or SUPPRESSED row stays exactly as it is through every run |
| DeliverySafety.StepKeepsClaimsSafe | hermes-backend/src/automated-deliveries/automated-delivery.service.ts:251-541 | every single step of any process keeps the invariant behind the above: who may still call, and whose claim can still be given back |
| DeliveryProgress.NoBotMessageDuringHandoff | hermes-backend/src/automated-deliveries/automated-delivery.service.ts:111-197 | at the moment of each automated call of a part that may not follow a handoff, its conversation is ACTIVE and has no open handoff |
| DeliveryProgress.EveryReplyIsForTheOperator | hermes-backend/src/conversations/conversations.service.ts:395-492 | each human reply is by the operator whose handoff of that conversation is IN_PROGRESS at the moment of the call |
| DeliveryProgress.CallsAreSerialized | hermes-backend/src/automated-deliveries/automated-delivery.service.ts:123-131 | all calls of one run are for one conversation, and between two of them no other batch and no human reply calls for it |
| DeliveryProgress.ConfirmedPartsAreAPrefix | hermes-backend/src/automated-deliveries/automated-delivery.service.ts:134-215 | if all rows of a source were prepared before its first run, its confirmed parts are a prefix in part order, across retries, 429 rollbacks and sweeps |
| DeliveryProgress.ReportedConfirmationsAreExact | hermes-backend/src/automated-deliveries/automated-delivery.service.ts:134-215 | the number a run returns as confirmed is the number of its source's rows then CONFIRMED |
| DeliveryProgress.StepKeepsOrderly | hermes-backend/src/automated-deliveries/automated-delivery.service.ts:111-197 | every step without a lock timeout keeps locks, run numbers, eligibility of pending calls, progress and counts in order together |
| DeliveryProgressSteps.CountIsCardinality | hermes-backend/src/automated-deliveries/automated-delivery.service.ts:145-147 | filtering the rows read for CONFIRMED counts each confirmed row once |
| DeliveryOrder.StepKeepsSerial | hermes-backend/src/automated-deliveries/automated-delivery.service.ts:123-131 | each conversation lock has one holder, and a run that has called Meta is the only one to have called for its conversation since |
| DeliveryOrder.StepKeepsGuarded | hermes-backend/src/automated-deliveries/automated-delivery.service.ts:313-350 | what a claim has checked about conversation and handoffs still holds until the call, since operations on it need the lock |
| DeliveryOrder.OthersKeepStanding | hermes-backend/src/handoff/handoff.service.ts:72-170 | an operation under another conversation's lock, or resuming on an inbound message, cannot take away a conversation's permission to be written to |
| Deliveries.ClaimedIffItMayBeSent | hermes-backend/src/automated-deliveries/automated-delivery.service.ts:251-424 | a part is claimed if and only if it is prepared and every eligibility condition holds; a prepared part that is not eligible is suppressed for good; nothing else changes |
| Deliveries.SuppressedForTheFirstReason | hermes-backend/src/automated-deliveries/automated-delivery.service.ts:261-399 | the reason of a suppression holds of what the claim has read, and no reason that the program checks earlier does |
| Deliveries.ReportedAsItStands | hermes-backend/src/automated-deliveries/automated-delivery.service.ts:261-289 | a part that is missing or not prepared is left alone and reported with what has become of it |
| Deliveries.FailureFollowsTheAnswer | hermes-backend/src/automated-deliveries/automated-delivery.service.ts:496-541 | a failure makes the owner's row PREPARED if and only if Meta answered 429, REJECTED if and only if it rejected the message for good, and AMBIGUOUS otherwise, with Meta's code as the reason |
| Deliveries.ClaimOutlivesSweepsForItsLease | hermes-backend/src/automated-deliveries/automated-delivery.service.ts:217-231 | a claim counts one more attempt, survives the sweeper up to and including sixty seconds, and is AMBIGUOUS with reason CLAIM_EXPIRED after them |
| Deliveries.PreparingKeepsOneRowAKey | hermes-backend/src/automated-deliveries/automated-delivery.service.ts:61-81 | preparing keeps one row an operation key: existing rows stay, and the first part of a new key makes its row |
| Deliveries.PreparingAgainChangesNothing | hermes-backend/src/automated-deliveries/automated-delivery.service.ts:61-81 | preparing a source again changes nothing, whatever has become of its rows and whatever the second request says |
| Deliveries.SweptAreAmbiguous | hermes-backend/src/automated-deliveries/automated-delivery.service.ts:217-232 | a sweep makes exactly the claims AMBIGUOUS whose lease is over, in addition to the rows that were |
| Deliveries.SweepsCompose | hermes-backend/src/automated-deliveries/automated-delivery.service.ts:217-248 | two sweeps, in either order and of whichever instance, are one at the later time |
| DeliveryStores.DeliveryStore.PrepareBatch | hermes-backend/src/automated-deliveries/automated-delivery.service.ts:61-81 | rows that are there stay as they are, whatever their status; the new rows are exactly those of the parts' new operation keys, each PREPARED without a claim and made by the first part with its key |
| DeliveryStores.DeliveryStore.TakeClaim | hermes-backend/src/automated-deliveries/automated-delivery.service.ts:251-353 | the claim transaction, branch by branch: a prepared part is DISPATCHING under the new token for sixty seconds with one attempt more if it may be sent, and SUPPRESSED with the reason returned if not; any other part stays |
| DeliveryStores.DeliveryStore.ConfirmSend | hermes-backend/src/automated-deliveries/automated-delivery.service.ts:446-494 | confirms exactly for the owner of the claim, writing the message and the row together; otherwise throws and changes nothing |
| DeliveryStores.DeliveryStore.HandleFailure | hermes-backend/src/automated-deliveries/automated-delivery.service.ts:496-541 | for the owner of the claim alone, and field by field: PREPARED on a 429, REJECTED on a definitive rejection, AMBIGUOUS otherwise; asks for a retry exactly on a 429 |
| DeliveryStores.DeliveryStore.RecoverExpiredClaims | hermes-backend/src/automated-deliveries/automated-delivery.service.ts:217-232 | a claim whose lease runs stays its owner's, every other claim ends AMBIGUOUS with CLAIM_EXPIRED and its attempts, no expired claim remains, and the count returned is by how many rows the AMBIGUOUS ones have become more |
| DeliveryStores.DeliveryStore.DeliverPart | hermes-backend/src/automated-deliveries/automated-delivery.service.ts:149-212 | one turn of the loop changes one row, ends with it CONFIRMED exactly if it was claimed, accepted and stored, and otherwise returns the reason that the row then has |
| DeliveryStores.DeliveryStore.DeliverLockedBatch | hermes-backend/src/automated-deliveries/automated-delivery.service.ts:134-215 | a batch run confirms a prefix of its parts in order, adds exactly their messages in part order, leaves later parts untouched, and returns the number of confirmed rows and, if a part stopped it, that part's reason |
| Conversations.HandedOffIffOneOpenHandoff | hermes-backend/src/handoff/handoff.service.ts:72-209 | in every reachable state a conversation is HANDED_OFF iff it has exactly one open handoff, has none otherwise, and has closedAt iff it is CLOSED |
| Conversations.EveryRunIsValid | hermes-backend/src/handoff/handoff.service.ts:72-433 | any sequence of handoff, close, reopen and inbound operations, each in one go, keeps conversations and handoffs in agreement |
| Conversations.OperatorAndEndAreForever | hermes-backend/src/handoff/handoff.service.ts:312-433 | an assigned handoff keeps its operator and a resolved one stays resolved through every run |
| Conversations.OnlyTheOperatorResolves | hermes-backend/src/handoff/handoff.service.ts:359-433 | a handoff stops being open if and only if its own operator resolves it with another action than KEEP_HUMAN |
| Conversations.StatusAfter | hermes-backend/src/handoff/handoff.service.ts:395-409 | which operations make a conversation CLOSED, ACTIVE or HANDED_OFF, with its closing time or none: its operator's resolution by its action, closing and reopening by hand without a human, a resumption, a handoff; every other operation leaves it as it is |
| Conversations.HandoffsAfter | hermes-backend/src/handoff/handoff.service.ts:312-433 | which operations assign, keep or end a handoff and which open one; every other operation leaves it as it is |
| Conversations.InboundJoins | hermes-backend/src/webhook/webhook.service.ts:626-693 | an inbound message joins the latest conversation while that is ACTIVE or HANDED_OFF, resumes it if it is CLOSED, and begins a new one otherwise |
| Conversations.ReplyIsForTheOperator | hermes-backend/src/conversations/conversations.service.ts:395-447 | a reply is authorised iff the window is open and the user is the operator of the open handoff in progress |
| Conversations.HandedOffBlocksCloseAndReopen | hermes-backend/src/conversations/conversations.service.ts:494-600 | closing and reopening by hand succeed exactly while no human holds the conversation |
| Conversations.HeldIffHandedOff | hermes-backend/src/handoff/handoff.service.ts:147-165 | the newest open handoff exists exactly for HANDED_OFF conversations |
| ConversationInterleavings.ValidIffNoneComesTooLate | hermes-backend/src/webhook/webhook.service.ts:626-682 | over every interleaving, with the read and the write of a resumption by an inbound message apart: conversations and handoffs agree in every state if and only if no resumption writes a conversation that has been handed over to a human since it was read |
| ConversationInterleavings.LateResumptionBreaks | hermes-backend/src/webhook/webhook.service.ts:642-660 | the write of a resumption keeps them in agreement if and only if no handoff of the conversation is open by then |
| ConversationInterleavings.LateResumptionLocksTheOperatorOut | hermes-backend/src/webhook/webhook.service.ts:626-682 | a run in which an operator who has taken a conversation over may write no more, since a late resumption has made it ACTIVE |
| ConversationStores.ConversationStore.Create | hermes-backend/src/handoff/handoff.service.ts:72-209 | hands the conversation over and opens a handoff if none is open, or is refused without a change: NotFound and ConversationClosed exactly when they hold |
| ConversationStores.ConversationStore.TakeOver | hermes-backend/src/handoff/handoff.service.ts:312-357 | makes the user the operator of a handoff that is open and free or already theirs, and is refused without a change otherwise, each refusal exactly when it holds |
| ConversationStores.ConversationStore.Finish | hermes-backend/src/handoff/handoff.service.ts:359-433 | for the operator of an open handoff only: the conversation is CLOSED with the time on CLOSE_CONVERSATION, ACTIVE without one on RETURN_TO_HERMES, and stays HANDED_OFF on KEEP_HUMAN; the handoff is RESOLVED but for the last |
| ConversationStores.ConversationStore.CloseByHand | hermes-backend/src/conversations/conversations.service.ts:494-548 | closes with a closing time unless a handoff is open |
| ConversationStores.ConversationStore.ReopenByHand | hermes-backend/src/conversations/conversations.service.ts:550-600 | reactivates unless a handoff is open |
| ConversationStores.ConversationStore.ForInbound | hermes-backend/src/webhook/webhook.service.ts:626-693 | an inbound message always gets a conversation that is ACTIVE or HANDED_OFF: the contact's latest, made ACTIVE if it was closed, or a new one |
| ConversationStores.ConversationStore.Authorize | hermes-backend/src/conversations/conversations.service.ts:395-447 | the authorisation's refusals in the program's order; it writes nothing |
| InboundTurns.FrozenFromTheFirstClaim | hermes-backend/src/auto-replies/inbound-turn.service.ts:20-118 | from its first successful claim on, through releases, new claims and completion, a turn keeps exactly its messages, their order and its due time |
| InboundTurns.DueOnlyMovesOnUpToTheMaximum | hermes-backend/src/auto-replies/inbound-turn.service.ts:48-72 | through every run a turn's dueAt never decreases and never exceeds firstAt + maxWait |
| InboundTurns.SchedulingPlaces | hermes-backend/src/auto-replies/inbound-turn.service.ts:48-78 | a new message makes its turn due at the earlier of the debounce after now and the maximum wait after its first message, in an open turn of its conversation that was not yet due, or else in a new one |
| InboundTurnTiming.OpenTurnIsDueIff | hermes-backend/src/auto-replies/inbound-turn.service.ts:57-107 | over every run from the empty tables, an open turn is claimable if and only if the debounce has passed since its last message was scheduled, or the maximum wait since its first |
| InboundTurnTiming.OldReadingMovesDueBackIff | hermes-backend/src/auto-replies/inbound-turn.service.ts:25-70 | a scheduling whose clock reading has grown old moves the due time of the turn it joins back if and only if the turn was due later than the debounce after that reading |
| InboundTurns.ScheduleAppends | hermes-backend/src/auto-replies/inbound-turn.service.ts:20-89 | a new message is appended to the one open turn not yet due, if there is one, and else to a new turn; other turns keep their messages |
| InboundTurns.SchedulingTwiceChangesNothing | hermes-backend/src/auto-replies/inbound-turn.service.ts:43-47 | scheduling a message again returns the same turn and changes nothing |
| InboundTurns.EveryReachableTableIsValid | hermes-backend/src/auto-replies/inbound-turn.service.ts:20-201 | in every reachable state at most one turn of a conversation can be joined, positions of a turn are 0..n-1, and lastMessageId is the last of them |
| InboundTurns.EveryRunIsValid | hermes-backend/src/auto-replies/inbound-turn.service.ts:20-201 | every sequence of schedules, claims, completions and releases keeps that |
| InboundTurns.OldTokensAreFenced | hermes-backend/src/auto-replies/inbound-turn.service.ts:173-201 | completing or releasing with a token that no longer holds the turn changes nothing, now and after any run |
| InboundTurns.ProcessedIsForever | hermes-backend/src/auto-replies/inbound-turn.service.ts:91-201 | a PROCESSED turn is never touched again |
| InboundTurns.ClaimsOverlapOnlyAfterTheLease | hermes-backend/src/auto-replies/inbound-turn.service.ts:91-118 | unless its holder completes or releases it, a turn is claimed again only after more than fifteen minutes |
| InboundTurns.RecoverableIffClaimable | hermes-backend/src/auto-replies/inbound-turn.service.ts:129-146 | recovery looks for exactly the turns a claim accepts, although it does not ask whether a stale turn is due |
| InboundTurns.RecoveryIsExactUpToItsCap | hermes-backend/src/auto-replies/inbound-turn.service.ts:129-146 | recovery returns only claimable turns, and all of them if and only if there are at most a hundred; one it leaves out is due no earlier than those it returns |
| InboundTurns.RecoveryAnswers | hermes-backend/src/auto-replies/inbound-turn.service.ts:129-146 | the recovery query has an answer on every table: the recoverable turns by due time, cut off after a hundred |
| InboundTurns.ABurstOverflowsRecovery | hermes-backend/src/auto-replies/inbound-turn.service.ts:129-146 | a run from the empty tables, one message in each of a hundred and one conversations, after which the recovery query has an answer and every answer leaves out a claimable turn |
| InboundTurns.ClaimableFromNextClaimAt | hermes-backend/src/auto-replies/inbound-turn.service.ts:148-152 | an open turn is claimable exactly from its due time on, and one under a lease exactly from the millisecond after the fifteen minutes from its claim; nextClaimAt is the due time or the end of the lease |
| InboundTurns.JobsComeBackUnlessItIsTimeAlready | hermes-backend/src/auto-replies/auto-reply.service.ts:124-139 | a job that comes back does so one millisecond after nextClaimAt and finds its untouched turn claimable; exactly when a job gives up an unfinished turn, which recovery then finds |
| InboundTurns.GivesUpAtTheEndOfALease | hermes-backend/src/auto-replies/auto-reply.service.ts:126-139 | a run from the empty tables to the very end of a worker's lease: the job's claim fails and no recheck is queued |
| InboundTurns.InboundTurnStore.ScheduleMessage | hermes-backend/src/auto-replies/inbound-turn.service.ts:20-89 | the schedule transaction places a new message as SchedulingPlaces says, with the next position of its turn; a message that has its turn changes nothing, and exactly unknown and foreign messages are refused |
| InboundTurns.InboundTurnStore.ClaimTurn | hermes-backend/src/auto-replies/inbound-turn.service.ts:91-118 | claims exactly a due turn that is open or stale, and returns it with the new token |
| InboundTurns.InboundTurnStore.CompleteTurn | hermes-backend/src/auto-replies/inbound-turn.service.ts:173-186 | completes the turn for the holder of the token only |
| InboundTurns.InboundTurnStore.ReleaseTurn | hermes-backend/src/auto-replies/inbound-turn.service.ts:188-201 | reopens the turn for the holder of the token only |
| PaymentSafety.PaymentsAndLeadsAgree | hermes-backend/src/payments/payments.service.ts:257-303 | over all runs: at most one open and at most one approved transfer a lead; under review means PAYMENT_REVIEW; WON means no open transfer; approved means WON, a proof of its own conversation, and a recorded contract of exactly that transfer's amount and currency |
| PaymentSafety.EveryRunIsSound | hermes-backend/src/payments/payments.service.ts:257-720 | every sequence of lead and payment operations keeps all of that |
| PaymentSafety.WonIsForever | hermes-backend/src/leads/leads.service.ts:528-665 | a WON lead stays WON with the same recorded contract through every run |
| PaymentSafety.HowALeadIsWon | hermes-backend/src/payments/payments.service.ts:600-650 | a lead becomes WON if and only if it is closed by hand from PROPOSAL or NEGOTIATION with a complete deal and no open transfer, or a transfer under review is approved on its own proof |
| PaymentEffects.StageAfter | hermes-backend/src/payments/payments.service.ts:257-720 | which operation moves a lead to which stage; every other operation leaves its stage |
| PaymentEffects.MovesAllowed | hermes-backend/src/leads/leads.service.ts:42-64 | the moves that an operator may make, told by the order of the stages |
| PaymentEffects.UpdateRefusedFor | hermes-backend/src/leads/leads.service.ts:531-646 | each refusal of an operator's update holds exactly when it is returned, in the program's order |
| PaymentEffects.UpdateWrites | hermes-backend/src/leads/leads.service.ts:649-670 | an update writes the fields that it names and no others, and records the contract exactly when it wins the lead |
| PaymentEffects.IncompleteIff | hermes-backend/src/leads/leads.service.ts:632-646 | a deal is complete exactly with a positive amount, a currency of three capital letters and a reference that is not blank |
| PaymentEffects.InstructionsAreDecidedIff | hermes-backend/src/payments/payments.service.ts:225-256 | instructions are decided on if and only if they are asked for and the newest lead of the conversation is between QUALIFIED and PAYMENT_PENDING with a proposal and without an approved transfer; for its proposal, in its currency or USD |
| PaymentEffects.LeadIsCreatedIff | hermes-backend/src/leads/leads.service.ts:276-306 | an operator's lead is created if and only if it does not start WON, its contact is known and has no lead that goes on, and the conversation it is to be linked to has none |
| PaymentEffects.MessageFindsALeadIff | hermes-backend/src/leads/leads.service.ts:325-365 | a message finds or makes a lead if and only if its contact is known and the newest lead is that of the conversation or the conversation has none |
| PaymentEffects.QualificationRefusedIff | hermes-backend/src/leads/leads.service.ts:706-762 | when an automatic qualification is refused, exactly |
| PaymentEffects.NewLeadsAreBlank | hermes-backend/src/leads/leads.service.ts:276-365 | a new lead has no proposal, deal or milestone, and is at the stage and linked to the conversation that its operation says |
| PaymentEffects.MessagesLinkTheNewestLead | hermes-backend/src/leads/leads.service.ts:325-365 | a message links its contact's newest lead to the conversation unless another lead is linked to it, and changes no other lead |
| PaymentEffects.TrimTakesTheEnds | hermes-backend/src/payments/payments.service.ts:601-629 | trimming a reference takes off exactly the white space at both ends |
| PaymentSafety.TransfersOnlyMoveForward | hermes-backend/src/payments/payments.service.ts:257-720 | through every run a transfer never moves back, keeps what it is for, and once APPROVED or REJECTED stays so with its reviewed proof |
| PaymentSafety.AtMostOneIsEverApproved | hermes-backend/src/payments/payments.service.ts:600-669 | a transfer of a lead that is approved at some time and one that is approved at any later time are the same |
| PaymentInterleavings.SafeIffNothingComesTooLate | hermes-backend/src/leads/leads.service.ts:528-674 | over every interleaving, with the reads of maybeSendInstructions and of update apart from their writes: all states are sound and WON is never left if and only if no commit finds its lead won since its decision and no update is overtaken: none writes another stage or deal over a lead that has been won meanwhile, or a stage against a transfer opened or put under review meanwhile |
| PaymentInterleavings.AskingAgainWouldRefuse | hermes-backend/src/leads/leads.service.ts:533-600 | every overtaken update would be refused by the same guards asked once more at the write |
| PaymentInterleavings.LateWriteBreaks | hermes-backend/src/leads/leads.service.ts:602-661 | the write of an update on what it read before keeps everything if and only if it is not overtaken |
| PaymentInterleavings.LateUpdateLosesAWonLead | hermes-backend/src/leads/leads.service.ts:528-661 | a run in which an update that has read an open lead writes LOST after the lead's transfer was approved |
| PaymentInterleavings.TransfersStillMoveForward | hermes-backend/src/payments/payments.service.ts:257-720 | whatever comes too late, transfers only move forward and decided ones stay decided |
| PaymentInterleavings.SafeIffNoCommitComesTooLate | hermes-backend/src/payments/payments.service.ts:225-303 | while updates read and write in one go: all states are sound and WON is never left if and only if no commit finds its lead won since its decision |
| PaymentInterleavings.LateCommitLeavesWon | hermes-backend/src/payments/payments.service.ts:257-289 | a commit keeps everything if and only if its lead is not WON by then; a late one moves the lead to PAYMENT_PENDING |
| PaymentInterleavings.TwoApprovedTransfers | hermes-backend/src/payments/payments.service.ts:225-303 | a run in which a lead leaves WON and ends with two approved transfers |
| PaymentSafety.CommitKeepsSound | hermes-backend/src/payments/payments.service.ts:257-303 | creating a transfer for a lead that is not WON keeps at most one open transfer a conversation |
| PaymentSafety.UpdateKeepsSound | hermes-backend/src/leads/leads.service.ts:528-665 | no stage change by an operator breaks what transfers require of their lead |
| PaymentSafety.QualifyKeepsSound | hermes-backend/src/leads/leads.service.ts:706-762 | automatic qualification touches only leads without transfers |
| PaymentSafety.LinkKeepsSound | hermes-backend/src/leads/leads.service.ts:325-365 | linking a lead to its contact's conversation never moves a transfer to another conversation |
| PaymentSafety.CreateLeadKeepsSound | hermes-backend/src/leads/leads.service.ts:276-306 | creating a lead keeps one lead a conversation and never starts at WON |
| PaymentSafety.ApplyStep | hermes-backend/src/leads/leads.service.ts:42-64 | no operation moves a lead back to NEW or CONTACTED, moves it to another conversation or takes it out of WON |
| PaymentStores.PaymentStore.UpdateLead | hermes-backend/src/leads/leads.service.ts:528-665 | the operator's update with its refusals in the program's order, keeping the invariant |
| PaymentStores.PaymentStore.CommitInstructions | hermes-backend/src/payments/payments.service.ts:257-303 | the commit alone, row by row: an open transfer is reused, a used source message refused, and otherwise a prepared transfer of the decided amount is added and the lead goes to PAYMENT_PENDING whatever its stage |
| PaymentStores.PaymentStore.ReconcileInstruction | hermes-backend/src/payments/payments.service.ts:335-376 | marks the instructions as sent once, without reopening a later status |
| PaymentStores.PaymentStore.RecordProof | hermes-backend/src/payments/payments.service.ts:475-504 | records each proof message once and moves transfer and lead to review together |
| PaymentStores.PaymentStore.BeginReview | hermes-backend/src/payments/payments.service.ts:566-598 | starts the review of a transfer with a proof only |
| PaymentStores.PaymentStore.ApproveTransfer | hermes-backend/src/payments/payments.service.ts:600-669 | exactly when the expected transfer is under review with a proof of its own and a reference, it is APPROVED, and its lead is WON with a recorded contract of exactly the transfer's amount, its currency and the trimmed reference; else nothing changes |
| PaymentStores.PaymentStore.RejectTransfer | hermes-backend/src/payments/payments.service.ts:677-720 | exactly when the expected transfer is under review and a note is given, it is REJECTED and its lead back at PAYMENT_PENDING; else nothing changes |
| Campaigns.AtMostOneEffectiveCall | hermes-backend/src/campaigns/campaigns.service.ts:481-661 | over duplicate jobs, pause and resume, stale starts, retries, exhausted retries, failures after the answer and crashes, a recipient gets at most one call not answered 429 |
| CampaignEffects.OnlyTheWillingAreCalled | hermes-backend/src/campaigns/campaigns.service.ts:576-616 | over every interleaving, Meta is called only for a recipient that some job had read as consenting, queued and unsent while its campaign was running |
| CampaignEffects.WillingIsCalled | hermes-backend/src/campaigns/campaigns.service.ts:576-616 | such a recipient that nobody has claimed is called by the job that read it |
| CampaignEffects.RateLimitedJobCallsAgain | hermes-backend/src/campaigns/campaigns.service.ts:638-661 | a 429 loses nothing: the job may read, claim and call again while the campaign is running and the recipient queued |
| CampaignEffects.StatusAfter | hermes-backend/src/campaigns/campaigns.service.ts:481-766 | which step gives a recipient which status; every other step leaves it |
| CampaignEffects.ClaimAfter | hermes-backend/src/campaigns/campaigns.service.ts:600-637 | a recipient is claimed by the claim of a willing job and given back by a 429 alone; its identifier and its timestamp are those of the last answer stored and the last callback written |
| CampaignEffects.LaunchesAfter | hermes-backend/src/campaigns/campaigns.service.ts:481-508 | a start goes ahead if and only if its campaign is DRAFT, READY or PAUSED and somebody waits, and reads exactly the pending and queued recipients |
| CampaignEffects.NotesAfter | hermes-backend/src/campaigns/campaigns.service.ts:663-766 | a callback decides to write if and only if it carries the recipient's own message identifier and is not to be ignored, and a reply if and only if the recipient has been reached |
| CampaignEffects.CampaignAfter | hermes-backend/src/campaigns/campaigns.service.ts:509-574 | a start makes its campaign RUNNING whatever it is by then; only a running one is paused or completed, and only one that is not over is cancelled |
| Campaigns.IdentifiersComeFromCalls | hermes-backend/src/campaigns/campaigns.service.ts:617-637 | a recipient's wamid is Meta's answer to a call to that recipient |
| Campaigns.StepKeepsSafe | hermes-backend/src/campaigns/campaigns.service.ts:481-766 | every step keeps one holder for each claimed recipient, and whoever was called with effect claimed for good |
| Campaigns.CallbacksAndRepliesNeverLowerARank | hermes-backend/src/campaigns/campaigns.service.ts:663-766 | a status callback or a reply never lowers the rank of its recipient, as long as nobody else writes the recipient between its read and its write |
| Campaigns.RankFallsIff | hermes-backend/src/campaigns/campaigns.service.ts:481-766 | with reads and writes apart, a step lowers a recipient's rank if and only if a start queues it that had read it before it came further, or an accepted answer is stored after something else has settled it, or a callback is written whose comparison of ranks, made again now, would ignore it |
| Campaigns.LaunchedRow | hermes-backend/src/campaigns/campaigns.service.ts:509-523 | a start writes QUEUED to those of its recipients who had opted in, SKIPPED to its others, and nothing else to anyone |
| CampaignExhaustion.ExhaustedIsNotCalledAgainIff | hermes-backend/src/campaigns/campaigns.service.ts:726-744 | a recipient that a job's last retry leaves queued is FAILED, and in no run without a start's write is it called again, if and only if no duplicate of the job has it claimed at that moment |
| CampaignExhaustion.ExhaustedStaysUnsentIff | hermes-backend/src/campaigns/campaigns.service.ts:726-744 | and, in a world that a run has reached, it stays FAILED or SKIPPED in every such continuation if and only if no job has it claimed or has an accepted answer for it to store |
| CampaignStories.DuplicateCallsAfterTheLastRetry | hermes-backend/src/campaigns/campaigns.service.ts:726-744 | a run from a fresh campaign in which a recipient is FAILED by an exhausted job and then called by a duplicate that had claimed it |
| CampaignStories.StaleCallbackRevivesAFailure | hermes-backend/src/campaigns/campaigns.service.ts:663-724 | a run from a fresh campaign in which a FAILED recipient becomes DELIVERED, by a callback that had read it SENT |
| Campaigns.ReadAndWriteAreMark | hermes-backend/src/campaigns/campaigns.service.ts:669-723 | a callback's read and write with nothing in between are the one-step change that the callback lemmas are about |
| CampaignStories.StaleStartQueuesAgain | hermes-backend/src/campaigns/campaigns.service.ts:498-523 | a run from a fresh campaign in which a SENT recipient falls back to QUEUED, because two starts had read it before either wrote; it still cannot be claimed |
| CampaignCallbacks.ConfluentIffTopIsLatest | hermes-backend/src/campaigns/campaigns.service.ts:663-724 | handled one after another, any order and repetition of callbacks ends at the highest applicable rank if and only if some callback of that rank is at least as late as every lower-ranked one |
| CampaignCallbacks.AgreeingCallbacksAreConfluent | hermes-backend/src/campaigns/campaigns.service.ts:663-724 | callbacks whose timestamps agree with their ranks leave the recipient at the status of the highest-ranked one, in any order |
| CampaignCallbacks.RanksNeverFall | hermes-backend/src/campaigns/campaigns.service.ts:691-703 | no sequence of callbacks, handled one after another, lowers the rank or moves the timestamp back, and terminal statuses stay |
| CampaignCallbacks.MarkedIff | hermes-backend/src/campaigns/campaigns.service.ts:669-724 | a reported status is written, with its timestamp, if and only if the recipient's is not final, not further on, and no later callback has been written |
| CampaignCallbacks.ParsedIffSpelled | hermes-backend/src/campaigns/campaigns.service.ts:669-684 | exactly Meta's four words are understood, each as what it is |
| CampaignCallbacks.LateDeliveryHidesReading | hermes-backend/src/campaigns/campaigns.service.ts:699-703 | two callbacks whose order decides the final status |
| CampaignStores.CampaignStore.LaunchRecipients | hermes-backend/src/campaigns/campaigns.service.ts:509-523 | the start's loop queues those it had read who have opted in, skips the others it had read, leaves everyone else and all claims, wamids and timestamps alone, and makes nobody claimable who had been claimed |
| CampaignStores.CampaignStore.TakeClaim | hermes-backend/src/campaigns/campaigns.service.ts:600-611 | the conditional update succeeds exactly for a queued recipient without wamid and attempt |
| CampaignStores.CampaignStore.ProcessSendJob | hermes-backend/src/campaigns/campaigns.service.ts:576-661 | a send job calls Meta exactly for a willing, queued, unclaimed recipient of a running campaign and skips exactly an unwilling one; only a 429 gives the claim back; an accepted message ends FAILED exactly if storing it or the completion check throws |
| CampaignStores.CampaignStore.MarkRecipientStatus | hermes-backend/src/campaigns/campaigns.service.ts:663-724 | a callback that nobody interrupts changes one recipient as the rank and timestamp rules say, and unknown words nothing |
| CampaignStores.CampaignStore.MarkRetryExhausted | hermes-backend/src/campaigns/campaigns.service.ts:726-744 | afterwards no job that still has to read or to claim the recipient may send to it; one that still waited for its message is FAILED, and any other, like all other recipients, is left as it is |
| WebhookInbox.AcceptKeepsOneRowAKey | hermes-backend/src/webhook/webhook.service.ts:76-115 | accepting events keeps one row a key: rows that exist stay as they are, and the first event of a new key makes its row |
| WebhookInbox.RedeliveryChangesNothing | hermes-backend/src/webhook/webhook.service.ts:109-114 | a callback delivered again changes nothing, whatever was processed meanwhile |
| WebhookInbox.AtMostOneScannerWins | hermes-backend/src/webhook/webhook.service.ts:118-153 | once a claim of an event has succeeded, the claims of all readings made before fail, now and ever after |
| WebhookInbox.TakeoverOnlyAfterTheLease | hermes-backend/src/webhook/webhook.service.ts:138-153 | after a successful claim, whatever others do and until its worker finishes, the event stays the worker's and no other claim of it succeeds before five minutes have passed |
| WebhookInbox.OldTokensAreFenced | hermes-backend/src/webhook/webhook.service.ts:170-209 | a worker whose lease was taken over, or that is done, can never change the event again |
| WebhookInbox.CompletedIsForever | hermes-backend/src/webhook/webhook.service.ts:170-188 | a COMPLETED event is never touched again and no event is lost |
| WebhookInbox.CompletedIff | hermes-backend/src/webhook/webhook.service.ts:155-209 | through every run an event is COMPLETED in the end if and only if at some step the worker that owned it by then reported it as processed |
| WebhookInbox.FailuresWait | hermes-backend/src/webhook/webhook.service.ts:170-209 | work that does not complete an event leaves it FAILED for five seconds, or after a throw for five seconds an attempt up to a minute; nobody touches it before, through every run, and from then on it can be claimed |
| WebhookInbox.EveryEventCanBeCompleted | hermes-backend/src/webhook/webhook.service.ts:118-209 | from every state a run leads to, one more reading, claim and processing completes an event, at once or at the end of the lease that it waits for or that another worker had |
| WebhookInbox.EveryRunIsValid | hermes-backend/src/webhook/webhook.service.ts:76-217 | through every run lease, token and status of each row agree |
| WebhookInbox.InboxStore.AcceptWebhook | hermes-backend/src/webhook/webhook.service.ts:109-114 | createMany with skipDuplicates, event by event; the rows that are there stay as they are |
| WebhookInbox.InboxStore.TakeClaim | hermes-backend/src/webhook/webhook.service.ts:138-154 | the conditional update succeeds exactly if the row still is what the scan read, with its lease over at the scan's time; the event is then PROCESSING under the new token for five minutes from the clock, with one attempt more |
| WebhookInbox.InboxStore.Settle | hermes-backend/src/webhook/webhook.service.ts:170-209 | settles for the owner of the token only, field by field: COMPLETED, or FAILED for five seconds, or FAILED with the backoff |
| WebhookInbox.InboxStore.Scan | hermes-backend/src/webhook/webhook.service.ts:118-217 | a scan claims, works on and settles exactly the events that still match, and touches no other row |
| SplitterTheorems.SplitPreservesContent | hermes-backend/src/auto-replies/whatsapp-message-splitter.ts:5-36 | the normalised text is exactly part, separator, part, and so on; separators are one space, or empty only inside a word longer than the limit in force; all parts are non-empty and within both limits |
| SplitterTheorems.SplitFailsOnlyWhenItMust | hermes-backend/src/auto-replies/whatsapp-message-splitter.ts:20-35 | with valid limits and no word longer than maxPartChars it throws if and only if no breaking at spaces has at most maxParts pieces of at most maxPartChars |
| SplitterTheorems.SplitSucceedsIffFewEnough | hermes-backend/src/auto-replies/whatsapp-message-splitter.ts:20-35 | without a word longer than maxPartChars it succeeds if and only if the fewest pieces possible are at most maxParts, and the second packing has that many |
| SplitterTheorems.SplitSucceedsIff | hermes-backend/src/auto-replies/whatsapp-message-splitter.ts:24-35 | for any text at all it succeeds if and only if the text need not be split, or the first packing has at most maxParts parts, or the second has |
| SplitterTheorems.FirstPackingMayBeBetter | hermes-backend/src/auto-replies/whatsapp-message-splitter.ts:20-35 | a text with a word longer than maxPartChars that is split in two although its second packing needs three parts |
| SplitterTheorems.ShortTextNeverFails | hermes-backend/src/auto-replies/whatsapp-message-splitter.ts:20-35 | it never throws when the length + 1 is below ((maxParts+1)/2)·(maxPartChars+2) |
| SplitterTheorems.ShortTextNeverFailsSimply | hermes-backend/src/auto-replies/whatsapp-message-splitter.ts:20-35 | it never throws when the length is below ((maxParts+1)/2)·(maxPartChars+1) |
| SplitterTheorems.FewestIsFewest | hermes-backend/src/auto-replies/whatsapp-message-splitter.ts:58-84 | greedy word packing is itself a breaking, and no breaking at spaces has fewer pieces |
| SplitterTheorems.PackIsMinimal | hermes-backend/src/auto-replies/whatsapp-message-splitter.ts:42-56 | no grouping of the items into runs within the limit has fewer groups than greedy packing |
| SplitterTheorems.PackIsGrouping | hermes-backend/src/auto-replies/whatsapp-message-splitter.ts:42-56 | greedy packing is a grouping of the items in order, within the limit |
| SplitterTheorems.CutsDoNotHelp | hermes-backend/src/auto-replies/whatsapp-message-splitter.ts:24-27 | a cover that also cuts inside words has no fewer parts than the fewest at spaces |
| SplitterTheorems.CoverWithoutCutsJoins | hermes-backend/src/auto-replies/whatsapp-message-splitter.ts:58-84 | without words longer than the limit the parts joined by spaces are the text |
| SplitterTheorems.SentencesStayWhole | hermes-backend/src/auto-replies/whatsapp-message-splitter.ts:38-56 | when the first packing is used and every sentence fits the target, each part is a run of whole sentences |
| Splitter.NormalizeIsCleanAndFaithful | hermes-backend/src/auto-replies/whatsapp-message-splitter.ts:11 | normalising yields a text without double, leading or trailing spaces and keeps every other code unit in order |
| Splitter.NormalizeFixesClean | hermes-backend/src/auto-replies/whatsapp-message-splitter.ts:11 | a text that is already clean is not changed |
| SplitterMeaning.NormalizeJoinsTheWords | hermes-backend/src/auto-replies/whatsapp-message-splitter.ts:11 | normalising gives the words of the message, in order, with one space between two of them |
| SplitterMeaning.SpacesAreEcmaScripts | hermes-backend/src/auto-replies/whatsapp-message-splitter.ts:11 | white space is that of sections 12.2 and 12.3 of ECMA-262 |
| SplitterMeaning.SentencesAreExact | hermes-backend/src/auto-replies/whatsapp-message-splitter.ts:38-40 | the sentences together are the text; each but the last ends with a full stop, an exclamation or a question mark, and none has such a mark before white space within it |
| SplitterMeaning.TargetIsLeast | hermes-backend/src/auto-replies/whatsapp-message-splitter.ts:20-23 | the first packing's limit is the least one, not below the threshold, at which maxParts full parts would hold the text, but at most maxPartChars |
| SplitterMeaning.InvalidLimitsIff | hermes-backend/src/auto-replies/whatsapp-message-splitter.ts:12-15 | blank text is one empty part whatever the limits; other text is refused for its limits if and only if one is not positive |
| SplitterMeaning.OrdinaryRepliesNeverFail | hermes-backend/src/auto-replies/whatsapp-message-splitter.ts:1-36 | with the default limits a reply of up to 5008 code units without a word of more than a thousand becomes at most nine parts of at most a thousand, and one part up to 520 |
| Splitter.CutWord | hermes-backend/src/auto-replies/whatsapp-message-splitter.ts:69-71 | cutting a long word in a loop yields its consecutive chunks |
| Splitter.SplitLongUnit | hermes-backend/src/auto-replies/whatsapp-message-splitter.ts:58-84 | the loop with its pending part equals the filling function |
| Splitter.PackUnits | hermes-backend/src/auto-replies/whatsapp-message-splitter.ts:42-56 | the packing loop equals greedy packing of the split units |
| Splitter.SplitWhatsAppMessage | hermes-backend/src/auto-replies/whatsapp-message-splitter.ts:5-36 | the whole function with its two errors equals the specification function |
| References.GenerateReference | hermes-backend/src/advertising/advertising.service.ts:859-874 | despite value wrapping at 32 bits and the length guard, the result is UC- and the first 22 symbols of the Base32 encoding (section 6 of RFC 4648) of the 14 bytes |
| Int32Operators.ShiftedIn | hermes-backend/src/advertising/advertising.service.ts:866 | (value << 8) | byte keeps the low 24 bits of value and appends the byte, modulo 2^32 |
| Int32Operators.FiveBits | hermes-backend/src/advertising/advertising.service.ts:869 | (value >>> k) & 31 are five bits of the unsigned value |
| References.ReferencesCollideIff | hermes-backend/src/advertising/advertising.service.ts:859-874 | two references are equal if and only if the byte strings agree on their first 110 bits |
| ReferenceNumbers.ReferenceIsTheNumber | hermes-backend/src/advertising/advertising.service.ts:859-874 | UC- and 22 symbols that, read as a number in base 32 by table 3 of RFC 4648, are the number the fourteen bytes spell, without its last two bits |
| ReferenceNumbers.ExtractedCouldBeGenerated | hermes-backend/src/advertising/advertising.service.ts:149-159 | whatever is extracted from a message is the reference of some fourteen bytes |
| ReferenceSearch.ReferenceIsFoundAgain | hermes-backend/src/advertising/advertising.service.ts:149-159 | extractReference finds the reference in a message that ends with its suffix, after any text that holds none, and before anything that does not run on as a word |
| ReferenceSearch.ReferenceIsFoundAgainIff | hermes-backend/src/advertising/advertising.service.ts:149-159 | for any text before and after, the reference of a message's suffix is extracted if and only if what is extracted before it is the same, or nothing is and the text after it does not run on as a word, or it does and what is then extracted after it is the same |
| ReferenceSearch.ExtractInTwo | hermes-backend/src/advertising/advertising.service.ts:149-159 | what is extracted from a message with the label is what stands before the label, or else what follows it |
| ReferenceSearch.ReferenceIsWellFormed | hermes-backend/src/advertising/advertising.service.ts:859-874 | a reference is UC- and 22 symbols of the alphabet |
| Amounts.GrammarsAreDisjoint | hermes-backend/src/hermes/monetary-values.ts:9-25 | a number matches at most one of the four grammars, so the order of the branches does not matter |
| Amounts.PrintedAmountsAreReadBack | hermes-backend/src/hermes/monetary-values.ts:9-25 | an amount printed plain, decimal, comma- or dot-grouped, after any text without digits and before trailing punctuation, is read back as the same two-decimal amount |
| Amounts.OnlySafeAmountsAreRead | hermes-backend/src/hermes/monetary-values.ts:21-24 | a printed amount is read if and only if its cents are at most 2^53 - 1 |
| Amounts.ValueIsThatOfTheDigits | hermes-backend/src/hermes/monetary-values.ts:13-20 | whenever a number is read, its value is that of all its digits, with as many decimals as follow the last separator if those are one or two |
| Amounts.NormalFormsAreFaithful | hermes-backend/src/hermes/monetary-values.ts:21-24 | a normalised amount is a fixed point, and different amounts have different normal forms |
| Resolutions.QuestionsAreSettledByWholeClauses | hermes-backend/src/auto-replies/auto-reply.service.ts:1394-1430 | end to end, for clauses that do not occur earlier from their own separator on: a pending question is settled if and only if an operation recorded it or some clause settles it and every physical part it reaches into, where it really stands, is confirmed |
| Resolutions.SpansAreTrue | hermes-backend/src/auto-replies/auto-reply.service.ts:1408-1411 | searching each clause from the end of the one before yields the true spans, if no clause occurs earlier from its own separator on |
| Resolutions.FoundWhereItStandsIff | hermes-backend/src/auto-replies/auto-reply.service.ts:1408-1411 | the search from the end of the clause before finds a clause where it stands if and only if the clause does not occur earlier, from its separator on |
| Resolutions.AllFoundIff | hermes-backend/src/auto-replies/auto-reply.service.ts:1408-1411 | all clauses of a reply are found where they stand if and only if each of them is the first occurrence from its separator on |
| Resolutions.DistinctIsFirstThere | hermes-backend/src/auto-replies/auto-reply.service.ts:1408-1411 | a clause with one letter that its separator has not is always found where it stands |
| Resolutions.ALetterOfItsOwnIsNotNeeded | hermes-backend/src/auto-replies/auto-reply.service.ts:1408-1411 | a clause without a letter of its own that is found where it stands all the same |
| Resolutions.RepeatedConjunctionIsMislocated | hermes-backend/src/auto-replies/auto-reply.service.ts:1408-1411 | a reply whose second clause repeats the conjunction before it: it is found too early |
| Resolutions.SettledIffWholeClauseArrived | hermes-backend/src/auto-replies/auto-reply.service.ts:1148-1171 | what is stored by part and by span settles a question exactly when all parts of one of its proofs are confirmed |
| Resolutions.SettlingIsMonotone | hermes-backend/src/auto-replies/auto-reply.service.ts:1345-1358 | more confirmed parts settle no fewer questions |
| Resolutions.OnlySettledQuestionsAreCleared | hermes-backend/src/auto-replies/auto-reply.service.ts:1364-1372 | no question is dropped unless it is settled, none appears from nowhere, and more confirmed parts keep no more |
| Resolutions.SecondRecoveryWritesNothing | hermes-backend/src/auto-replies/auto-reply.service.ts:1373-1383 | a second recovery with the same confirmed parts computes the identical list and writes nothing |
| Resolutions.WhatIsWritten | hermes-backend/src/auto-replies/auto-reply.service.ts:1373-1390 | what is written: the stored fields overwritten by the values of the turn's profile if some part was confirmed, and the questions that are still pending |
| Resolutions.RecoveryWritesIff | hermes-backend/src/auto-replies/auto-reply.service.ts:1360-1390 | a recovery writes if and only if something was confirmed or pending and no profile with the same pending questions is stored |
| Resolutions.StoredComeFirst | hermes-backend/src/auto-replies/auto-reply.service.ts:1364-1372 | the questions stored before come first, in their order |
| Resolutions.RepeatWithProfileWritesNothingIff | hermes-backend/src/auto-replies/auto-reply.service.ts:1363-1390 | when repeating a delivery with its turn profile writes nothing, exactly |
| Resolutions.OverlappingMeansSharing | hermes-backend/src/auto-replies/auto-reply.service.ts:1421-1423 | the overlap test holds for a clause that stands in the joined text if and only if some position of that text belongs to both, where part, clause and text have the same letter |
| Resolutions.PartStandsThere | hermes-backend/src/auto-replies/auto-reply.service.ts:1399-1405 | the joined text has each part at its start, letter by letter, with exactly one space before the next and nothing after the last |
| Resolutions.LettersArePartsOrSpaces | hermes-backend/src/auto-replies/auto-reply.service.ts:1399-1405 | every position of the joined text is the letter of one part or the space between two, and no two parts share one |
| Resolutions.EveryProofSettlesSomething | hermes-backend/src/auto-replies/auto-reply.service.ts:1408-1430 | whatever the texts, every proof that is kept names parts of the reply and exactly the pending questions that one of its clauses settles, at least one |
| Resolutions.Boundaries | hermes-backend/src/auto-replies/auto-reply.service.ts:1400-1405 | the loop over the parts yields where each part stands in the joined text |
| Resolutions.PartsWithin | hermes-backend/src/auto-replies/auto-reply.service.ts:1421-1423 | the parts that overlap a clause, in order |
| Resolutions.CommercialResolutionSpans | hermes-backend/src/auto-replies/auto-reply.service.ts:1394-1430 | the loop over the clauses, searching from a moving offset in the text whose letters PartStandsThere accounts for, equals the recursive search |
| Resolutions.ResolvedBy | hermes-backend/src/auto-replies/auto-reply.service.ts:1345-1358 | the two loops grow exactly the set of settled questions |

## Left out

- HTTP, Prisma, Redis, BullMQ, Meta, Google, speech, encryption and media calls; they appear as oracles or as the row updates they make.
- Controllers, input validation, dashboards, paging, prompts and generated text: no hard property.
- The commercial language policy and the splitting of a text into clauses are patterns of natural language; the clauses and what each settles are parameters.
- Audit logs, tasks, domain events and timestamps that nothing reads back.
- Transaction timeouts in the statements on order; a batch that outlives its six minutes, or a reply its forty seconds, loses the lock and with it serialisation.
- Collisions of `hashtext`, which would make two conversations share a lock.
- Interleavings inside the payment transactions and the lead operations other than `maybeSendInstructions` and `update`, and between the reads of `update` themselves: these are single steps by convention, whatever locks they take.
- Two clock readings within one turn of the delivery loop, which are one here; the conversation of a delivery row is taken to be that of its source message, as every caller passes it.
- The parsing of provider timestamps: a message carries its effective time.
- The commercial part of a handoff's creation, beyond the move of a NEW lead to CONTACTED.
- `updateStatus` with another target than CLOSED, which no caller uses; conversations that are PAUSED, which nothing writes.
- Contacts with more than one conversation in the payment model: a lead is linked to its contact's one conversation.
- `AdvertisingService.recordLeadEvent` and the deletion of leads, which write stages without looking at transfers.
- The campaign's own status, which pausing, cancelling and the completion check read before they write it: these are single steps here.
- Stale resumptions in the runs of deliveries: an inbound message resumes its conversation in one step there.
- CampaignCallbacks.ConfluentIffTopIsLatest: is about callbacks handled one after another; callbacks that read before others write are steps of `Campaigns`.
- CampaignStores.CampaignStore.MarkRecipientStatus: is about a callback that nobody interrupts, as above.
- `monetaryValuesIn` beyond the amount: finding currencies and candidates in a text is a pattern of its own.
- Amounts from 2^45 on, where doubles no longer tell cents apart; rounding is not modelled.
- The cap of fifty and the order of a scan's reading: an event is read by itself, and `WebhookInbox.EveryEventCanBeCompleted` is about the steps that concern one event.
- Message filters by direction and sender when a turn's messages are read; a turn holds inbound messages only.
- Newer inbound messages between delivery and reconciliation, which make reconciliation return early without a write.
- The Google synchronisation jobs, calendars, meetings and importing contacts: no strong run-wide claim holds, or no hard property.
- Resolutions.SpansAreTrue: asks that no clause occurs earlier from its own separator on, which is exactly when the search finds the clauses where they stand (`AllFoundIff`); `RepeatedConjunctionIsMislocated` is a reply where one does.
- Resolutions.QuestionsAreSettledByWholeClauses: asks the same of the reply's clauses.
- DeliveryStores.DeliveryStore.DeliverLockedBatch: is about a run that nobody interrupts; runs under interference are the step relation of `DeliveryRuns`.
- CampaignStores.CampaignStore.ProcessSendJob: is about a job that nobody interrupts; jobs under interference are the step relation of `Campaigns`.
- WebhookInbox.InboxStore.Scan: is about a scan that nobody interrupts; concurrent scanners are the runs of `WebhookInbox`.
