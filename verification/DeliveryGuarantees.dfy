/** What every run keeps without any help of the conversation lock. */
module DeliveryGuarantees {
  import opened Options
  import opened Conversations
  import opened Deliveries
  import opened DeliveryRuns
  import opened DeliverySafety

  lemma {:induction false} RunKeepsClaimsSafe(w: World, actions: seq<Action>)
    requires ClaimsSafe(w)
    ensures ClaimsSafe(Run(w, actions))
    decreases |actions|
  {
    if actions != [] {
      StepKeepsClaimsSafe(w, actions[0]);
      RunKeepsClaimsSafe(Step(w, actions[0]), actions[1..]);
    }
  }

  lemma EveryReachableClaimIsSafe(w: World, actions: seq<Action>)
    requires Initial(w)
    ensures ClaimsSafe(Run(w, actions))
  {
    RunKeepsClaimsSafe(w, actions);
  }

  /** In every interleaving, each row has at most one call that Meta did not answer with 429. */
  lemma AtMostOneEffectiveSend(w: World, actions: seq<Action>, i: nat, j: nat, k: Key)
    requires Initial(w)
    requires EffectiveAt(Run(w, actions).log, i, k) && EffectiveAt(Run(w, actions).log, j, k)
    ensures i == j
  {
    EveryReachableClaimIsSafe(w, actions);
  }

  /** The confirmed rows and the outbound messages are in bijection, and every confirmed row carries
      the wamid of its one accepted call. */
  lemma ConfirmedRowsAreTheMessages(w: World, actions: seq<Action>)
    requires Initial(w)
    ensures var after := Run(w, actions);
            && (forall k :: k in after.rows && after.rows[k].status == Confirmed ==>
                  && after.rows[k].outbound.Some? && after.rows[k].outbound.value < |after.outbox|
                  && after.rows[k].wamid.Some?
                  && after.outbox[after.rows[k].outbound.value].key == k
                  && after.outbox[after.rows[k].outbound.value].wamid == after.rows[k].wamid.value
                  && AcceptedFor(after.log, k, after.rows[k].wamid.value))
            && (forall i: nat :: i < |after.outbox| ==>
                  && after.outbox[i].key in after.rows
                  && after.rows[after.outbox[i].key].status == Confirmed
                  && after.rows[after.outbox[i].key].outbound == Some(i))
  {
    EveryReachableClaimIsSafe(w, actions);
    var after := Run(w, actions);
    forall i: nat | i < |after.outbox| ensures RowShape(after.rows[after.outbox[i].key]) {
    }
  }

  /** Token and lease are set exactly while a row is dispatching. */
  lemma TokenAndLeaseMeanDispatching(w: World, actions: seq<Action>, k: Key)
    requires Initial(w) && k in Run(w, actions).rows
    ensures var row := Run(w, actions).rows[k];
            && (row.token.Some? <==> row.status == Dispatching)
            && (row.expiresAt.Some? <==> row.status == Dispatching)
  {
    EveryReachableClaimIsSafe(w, actions);
  }

  lemma ClaimKeepsTerminalRows(rows: Ledger, db: Db, key: Key, ctx: Context, now: Time, token: Token, k: Key)
    requires k in rows && IsTerminal(rows[k].status)
    ensures k in Claim(rows, db, key, ctx, now, token).0 && Claim(rows, db, key, ctx, now, token).0[k] == rows[k]
  {
    hide WhyNot;
  }

  lemma AdvanceKeepsTerminalRows(w: World, p: ProcessId, ctx: Context, k: Key)
    requires p in w.processes && w.processes[p].Batch?
    requires k in w.rows && IsTerminal(w.rows[k].status)
    ensures k in Advance(w, p, ctx).rows && Advance(w, p, ctx).rows[k] == w.rows[k]
  {
    hide Claim;
    hide TurnOf;
    hide ConfirmedRows;
    match TurnOf(w.processes[p], w.clock)
    case Try(key) => ClaimKeepsTerminalRows(w.rows, w.db, key, ctx, w.clock, w.nextToken, k);
    case _ =>
  }

  lemma StepKeepsTerminalRows(w: World, a: Action, k: Key)
    requires k in w.rows && IsTerminal(w.rows[k].status)
    ensures k in Step(w, a).rows && Step(w, a).rows[k] == w.rows[k]
  {
    hide Advance;
    hide ConfirmedRows;
    if a.DoAdvance? && Step(w, a) != w {
      AdvanceKeepsTerminalRows(w, a.p, a.ctx, k);
    }
  }

  /** A terminal row never changes again, whatever happens. */
  lemma {:induction false} TerminalRowsNeverChange(w: World, actions: seq<Action>, k: Key)
    requires k in w.rows && IsTerminal(w.rows[k].status)
    ensures k in Run(w, actions).rows && Run(w, actions).rows[k] == w.rows[k]
    decreases |actions|
  {
    if actions != [] {
      StepKeepsTerminalRows(w, actions[0], k);
      TerminalRowsNeverChange(Step(w, actions[0]), actions[1..], k);
    }
  }
}
