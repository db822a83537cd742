/** What every step keeps of the progress of batch runs.

    A run that has read its parts is on track: everything before its position is confirmed, and its
    count is the number of confirmed rows. Confirmed parts form a prefix, only sources that a run has
    begun have any, and what a run returns is exact.

    The statements about whole runs are in `DeliveryProgress`. */
module DeliveryProgressSteps {
  import opened Options
  import opened Conversations
  import opened Deliveries
  import opened DeliveryRuns
  import opened DeliverySafety
  import opened DeliveryOrder

  /** A run that has read its parts: they are its source's rows in part order, all those before
      `next` are confirmed, and it has counted the confirmed rows. */
  ghost predicate OnTrack(rows: Ledger, late: set<MessageId>, b: Process)
    requires b.Batch?
  {
    if b.phase.Reading? then b.next == 0
    else
      && b.next <= |b.parts|
      && (forall i, j :: 0 <= i < j < |b.parts| ==>
            b.parts[i].key != b.parts[j].key && b.parts[i].key.part <= b.parts[j].key.part)
      && (forall i :: 0 <= i < |b.parts| ==>
            && b.parts[i].key in rows
            && ((i < b.next || b.parts[i].status == Confirmed) ==> rows[b.parts[i].key].status == Confirmed))
      && b.confirmed == |ConfirmedRows(rows, b.source)|
      && (b.source !in late ==> forall k :: k in rows && k.source == b.source ==>
            exists i :: 0 <= i < |b.parts| && b.parts[i].key == k)
  }

  ghost predicate RunsOnTrack(w: World) {
    forall p :: p in w.processes && w.processes[p].Batch? ==> OnTrack(w.rows, w.late, w.processes[p])
  }

  /** Below a confirmed part every part is confirmed, unless rows were added after a run began. */
  ghost predicate ConfirmedPrefix(rows: Ledger, late: set<MessageId>) {
    forall k, m ::
      (k in rows && m in rows && k.source == m.source && k.source !in late
       && k.part < m.part && rows[m].status == Confirmed) ==> rows[k].status == Confirmed
  }

  ghost predicate OnlyBegunConfirmed(w: World) {
    && (forall k :: k in w.rows && w.rows[k].status == Confirmed ==> k.source in w.begun)
    && (forall p :: p in w.processes && w.processes[p].Batch? ==> w.processes[p].source in w.begun)
  }

  ghost predicate ResultsExact(w: World) {
    forall i: nat :: i < |w.results| ==> w.results[i].confirmed == w.results[i].actual
  }

  ghost predicate Progress(w: World) {
    RunsOnTrack(w) && ConfirmedPrefix(w.rows, w.late) && OnlyBegunConfirmed(w) && ResultsExact(w)
  }

  // ---------------------------------------------------------------- counting a snapshot

  ghost function ConfirmedAmong(rows: Ledger, keys: seq<Key>): set<Key>
    requires forall k :: k in keys ==> k in rows
  {
    set k | k in keys && rows[k].status == Confirmed
  }

  lemma {:induction false} CountIsCardinality(rows: Ledger, keys: seq<Key>)
    requires forall k :: k in keys ==> k in rows
    requires forall i, j :: 0 <= i < j < |keys| ==> keys[i] != keys[j]
    ensures CountConfirmed(SnapshotOf(rows, keys)) == |ConfirmedAmong(rows, keys)|
    decreases |keys|
  {
    if keys != [] {
      var n := |keys| - 1;
      var front, last := keys[..n], keys[n];
      assert keys == front + [last];
      CountIsCardinality(rows, front);
      assert SnapshotOf(rows, keys)[..n] == SnapshotOf(rows, front);
      var before := ConfirmedAmong(rows, front);
      assert last !in before;
      assert ConfirmedAmong(rows, keys) == if rows[last].status == Confirmed then before + {last} else before;
    }
  }

  lemma ReadIsOnTrack(rows: Ledger, late: set<MessageId>, b: Process, keys: seq<Key>)
    requires b.Batch? && b.phase == Deciding && b.next == 0 && InPartOrder(rows, b.source, keys)
    requires b.parts == SnapshotOf(rows, keys) && b.confirmed == CountConfirmed(b.parts)
    ensures OnTrack(rows, late, b)
  {
    CountIsCardinality(rows, keys);
    assert ConfirmedAmong(rows, keys) == ConfirmedRows(rows, b.source);
    forall k | k in rows && k.source == b.source ensures exists i :: 0 <= i < |b.parts| && b.parts[i].key == k {
      assert k in keys;
      var i :| 0 <= i < |keys| && keys[i] == k;
      assert b.parts[i].key == k;
    }
    forall i | 0 <= i < |b.parts| ensures b.parts[i].key in rows {
      assert keys[i] in keys;
    }
  }

  // ---------------------------------------------------------------- what a step does to the confirmed rows

  /** No row is confirmed, and rows appear only where nobody counts on having read them all. */
  ghost predicate Uneventful(w: World, after: World) {
    && (forall k :: k in w.rows ==> k in after.rows)
    && (forall k :: k in after.rows && after.rows[k].status == Confirmed ==>
           k in w.rows && w.rows[k].status == Confirmed)
    && (forall k :: k in w.rows && w.rows[k].status == Confirmed ==> after.rows[k].status == Confirmed)
    && w.late <= after.late && w.begun <= after.begun
    && (forall k :: k in after.rows && k !in w.rows ==> k.source !in w.begun || k.source in after.late)
  }

  /** `p` confirms the row of its current part. */
  ghost predicate ConfirmsRow(w: World, after: World, p: ProcessId, key: Key) {
    && AtPart(w, p, key) && !w.processes[p].phase.Reading? && key in w.rows && w.rows[key].status != Confirmed
    && key in after.rows && after.rows == w.rows[key := after.rows[key]] && after.rows[key].status == Confirmed
    && after.late == w.late && after.begun == w.begun
  }

  lemma ConfirmStep(w: World, p: ProcessId, stored: bool)
    ensures var after := Step(w, DoConfirm(p, stored));
            || (after.rows == w.rows && after.late == w.late && after.begun == w.begun)
            || exists key :: ConfirmsRow(w, after, p, key)
  {
    var after := Step(w, DoConfirm(p, stored));
    if after.rows != w.rows {
      var b := w.processes[p];
      assert ConfirmsRow(w, after, p, b.parts[b.next].key);
    }
  }

  lemma LateStep(w: World, a: Action)
    ensures var after := Step(w, a);
            && w.late <= after.late && w.begun <= after.begun
            && (forall k :: k in after.rows && k !in w.rows && a.DoPrepare? && k == a.key ==>
                  k.source !in w.begun || k.source in after.late)
  {
    hide Advance;
    hide Return;
    hide InPartOrder;
    hide AuthorizeReply;
    match a
    case DoAdvance(p, ctx) =>
      if Step(w, a) != w {
        AdvanceLate(w, p, ctx);
      }
    case DoFail(p) => FailLate(w, p);
    case _ =>
  }

  lemma AdvanceLate(w: World, p: ProcessId, ctx: Context)
    requires p in w.processes && w.processes[p].Batch?
    ensures Advance(w, p, ctx).late == w.late && Advance(w, p, ctx).begun == w.begun
  {
    hide Claim;
    hide TurnOf;
    hide ConfirmedRows;
  }

  lemma FailLate(w: World, p: ProcessId)
    ensures Step(w, DoFail(p)).late == w.late && Step(w, DoFail(p)).begun == w.begun
  {
    hide ConfirmedRows;
  }

  lemma StepIsUneventful(w: World, a: Action)
    ensures var after := Step(w, a);
            Uneventful(w, after) || (a.DoConfirm? && exists key :: ConfirmsRow(w, after, a.p, key))
  {
    hide Step;
    var after := Step(w, a);
    StepRowsPersist(w, a);
    LateStep(w, a);
    forall k | k in w.rows ensures RowKept(w.rows, after.rows, k) {
    }
    forall k | k in after.rows ensures RowStep(w, a, after, k) {
    }
    if a.DoConfirm? {
      ConfirmStep(w, a.p, a.stored);
    }
  }

  // ---------------------------------------------------------------- each part of the invariant

  lemma UneventfulKeepsCount(w: World, after: World, source: MessageId)
    requires Uneventful(w, after)
    ensures ConfirmedRows(after.rows, source) == ConfirmedRows(w.rows, source)
  {
  }

  lemma UneventfulKeepsOnTrack(w: World, after: World, b: Process)
    requires Uneventful(w, after) && b.Batch? && OnTrack(w.rows, w.late, b) && b.source in w.begun
    ensures OnTrack(after.rows, after.late, b)
  {
    UneventfulKeepsCount(w, after, b.source);
  }

  lemma UneventfulKeepsPrefix(w: World, after: World)
    requires Uneventful(w, after) && ConfirmedPrefix(w.rows, w.late) && OnlyBegunConfirmed(w)
    ensures ConfirmedPrefix(after.rows, after.late)
  {
  }

  lemma ConfirmKeepsPrefix(w: World, after: World, p: ProcessId, key: Key)
    requires PartsOwned(w) && RunsOnTrack(w) && ConfirmedPrefix(w.rows, w.late) && ConfirmsRow(w, after, p, key)
    ensures ConfirmedPrefix(after.rows, after.late)
  {
    var b := w.processes[p];
    assert OnTrack(w.rows, w.late, b) && RunOwnsParts(w.rows, w.home, b);
    forall k | k in after.rows && k.source == key.source && k.source !in after.late && k.part < key.part
      ensures after.rows[k].status == Confirmed
    {
      var i :| 0 <= i < |b.parts| && b.parts[i].key == k;
      assert i < b.next;
    }
  }

  lemma ConfirmCounts(w: World, after: World, p: ProcessId, key: Key, source: MessageId)
    requires ConfirmsRow(w, after, p, key)
    ensures source != key.source ==> ConfirmedRows(after.rows, source) == ConfirmedRows(w.rows, source)
    ensures source == key.source ==> |ConfirmedRows(after.rows, source)| == |ConfirmedRows(w.rows, source)| + 1
  {
    if source == key.source {
      assert ConfirmedRows(after.rows, source) == ConfirmedRows(w.rows, source) + {key};
    }
  }

  lemma ConfirmKeepsOthersOnTrack(w: World, after: World, p: ProcessId, key: Key, q: ProcessId)
    requires Serial(w) && PartsOwned(w) && RunsOnTrack(w) && ConfirmsRow(w, after, p, key)
    requires q != p && q in w.processes && w.processes[q].Batch?
    ensures OnTrack(after.rows, after.late, w.processes[q])
  {
    var b, mine := w.processes[q], w.processes[p];
    assert OnTrack(w.rows, w.late, b) && RunOwnsParts(w.rows, w.home, b) && RunOwnsParts(w.rows, w.home, mine);
    assert b.source != mine.source by {
      assert w.locks[b.conversation] == q && w.locks[mine.conversation] == p;
    }
    ConfirmCounts(w, after, p, key, b.source);
  }

  ghost predicate SameParts(was: Process, b: Process)
    requires was.Batch? && b.Batch?
  {
    !was.phase.Reading? && !b.phase.Reading? && b.parts == was.parts && b.source == was.source
  }

  /** The run has read its parts. */
  ghost predicate ReadsParts(w: World, a: Action, was: Process, b: Process)
    requires was.Batch? && b.Batch?
  {
    && a.DoRead? && was.phase == Reading && b.phase == Deciding && InPartOrder(w.rows, b.source, a.keys)
    && b.next == was.next && b.source == was.source
    && b.parts == SnapshotOf(w.rows, a.keys) && b.confirmed == CountConfirmed(b.parts)
  }

  /** The run stays at its part, or passes one that it read as confirmed. */
  ghost predicate PassesParts(was: Process, b: Process)
    requires was.Batch? && b.Batch?
  {
    && SameParts(was, b) && b.confirmed == was.confirmed
    && (b.next == was.next
        || (b.next == was.next + 1 && was.next < |was.parts| && was.parts[was.next].status == Confirmed))
  }

  /** The run has confirmed its part. */
  ghost predicate CountsPart(w: World, after: World, p: ProcessId, was: Process, b: Process)
    requires was.Batch? && b.Batch?
  {
    && SameParts(was, b) && b.next == was.next + 1 && b.confirmed == was.confirmed + 1
    && exists key :: ConfirmsRow(w, after, p, key)
  }

  /** How the acting run itself moves on. */
  ghost predicate MovesOn(w: World, a: Action, p: ProcessId, b: Process)
    requires b.Batch?
  {
    || (b.phase == Reading && b.next == 0)
    || (&& p in w.processes && w.processes[p].Batch?
        && var was := w.processes[p];
           || (b == was && Step(w, a).rows == w.rows)
           || ReadsParts(w, a, was, b)
           || (PassesParts(was, b) && (a.DoConfirm? ==> Step(w, a).rows == w.rows))
           || CountsPart(w, Step(w, a), p, was, b))
  }

  lemma AdvanceMovesOn(w: World, p: ProcessId, ctx: Context)
    requires p in w.processes && w.processes[p].Batch? && w.processes[p].phase == Deciding
    requires p in Advance(w, p, ctx).processes && Advance(w, p, ctx).processes[p].Batch?
    requires Advance(w, p, ctx) == Step(w, DoAdvance(p, ctx))
    ensures MovesOn(w, DoAdvance(p, ctx), p, Advance(w, p, ctx).processes[p])
  {
    hide Step;
    hide Claim;
    hide ConfirmedRows;
  }

  lemma ConfirmMovesOn(w: World, p: ProcessId, stored: bool)
    requires p in Step(w, DoConfirm(p, stored)).processes && Step(w, DoConfirm(p, stored)).processes[p].Batch?
    ensures MovesOn(w, DoConfirm(p, stored), p, Step(w, DoConfirm(p, stored)).processes[p])
  {
    var after := Step(w, DoConfirm(p, stored));
    if after != w {
      var b := w.processes[p];
      var key := b.parts[b.next].key;
      if stored && OwnsClaim(w.rows, key, b.phase.token) {
        assert ConfirmsRow(w, after, p, key);
      }
    }
  }

  lemma ActorMovesOn(w: World, a: Action, p: ProcessId)
    requires Actor(a) == Some(p) && p in Step(w, a).processes && Step(w, a).processes[p].Batch?
    ensures MovesOn(w, a, p, Step(w, a).processes[p])
  {
    hide Advance;
    hide Return;
    hide ConfirmedRows;
    hide InPartOrder;
    hide AuthorizeReply;
    match a
    case DoAdvance(_, ctx) =>
      if Step(w, a) != w {
        AdvanceMovesOn(w, p, ctx);
      }
    case DoConfirm(_, stored) => ConfirmMovesOn(w, p, stored);
    case DoSend(_, answer) =>
    case DoBegin(_, source) =>
    case DoRead(_, keys) =>
    case DoFail(_) => FailShape(w, p);
    case DoAuthorize(_, _, _, _) =>
    case DoReply(_, _) =>
    case DoFinishReply(_) =>
    case DoCrash(_) =>
    case DoTimeout(_) =>
  }

  lemma PassingIsOnTrack(rows: Ledger, late: set<MessageId>, was: Process, b: Process)
    requires was.Batch? && b.Batch? && PassesParts(was, b) && OnTrack(rows, late, was)
    ensures OnTrack(rows, late, b)
  {
  }

  lemma CountingIsOnTrack(w: World, after: World, p: ProcessId, was: Process, b: Process)
    requires p in w.processes && w.processes[p] == was && was.Batch? && b.Batch?
    requires CountsPart(w, after, p, was, b) && OnTrack(w.rows, w.late, was) && RunOwnsParts(w.rows, w.home, was)
    ensures OnTrack(after.rows, after.late, b)
  {
    var key :| ConfirmsRow(w, after, p, key);
    ConfirmCounts(w, after, p, key, b.source);
  }

  lemma ActorStaysOnTrack(w: World, a: Action, p: ProcessId)
    requires PartsOwned(w) && RunsOnTrack(w) && OnlyBegunConfirmed(w)
    requires Actor(a) == Some(p) && p in Step(w, a).processes && Step(w, a).processes[p].Batch?
    ensures OnTrack(Step(w, a).rows, Step(w, a).late, Step(w, a).processes[p])
  {
    hide Step;
    hide ConfirmsRow;
    hide Uneventful;
    hide RunOwnsParts;
    var after := Step(w, a);
    var b := after.processes[p];
    ActorMovesOn(w, a, p);
    if !(b.phase == Reading && b.next == 0) {
      var was := w.processes[p];
      assert OnTrack(w.rows, w.late, was) && RunOwnsParts(w.rows, w.home, was) && was.source in w.begun;
      if CountsPart(w, after, p, was, b) {
        CountingIsOnTrack(w, after, p, was, b);
      } else {
        ActorStaysOnTrackQuietly(w, a, p, was, b);
      }
    }
  }

  lemma ActorStaysOnTrackQuietly(w: World, a: Action, p: ProcessId, was: Process, b: Process)
    requires was.Batch? && b.Batch? && OnTrack(w.rows, w.late, was) && was.source in w.begun
    requires (b == was && Step(w, a).rows == w.rows) || ReadsParts(w, a, was, b)
          || (PassesParts(was, b) && (a.DoConfirm? ==> Step(w, a).rows == w.rows))
    ensures OnTrack(Step(w, a).rows, Step(w, a).late, b)
  {
    hide Step;
    hide CountConfirmed;
    hide SnapshotOf;
    hide InPartOrder;
    StepIsUneventful(w, a);
    assert Uneventful(w, Step(w, a)) by {
      hide OnTrack;
      hide PassesParts;
    }
    assert OnTrack(w.rows, w.late, b) by {
      if ReadsParts(w, a, was, b) {
        ReadIsOnTrack(w.rows, w.late, b, a.keys);
      } else if b != was {
        PassingIsOnTrack(w.rows, w.late, was, b);
      }
    }
    hide OnTrack;
    UneventfulKeepsOnTrack(w, Step(w, a), b);
  }

  lemma StepKeepsRunsOnTrack(w: World, a: Action)
    requires Serial(w) && PartsOwned(w) && RunsOnTrack(w) && OnlyBegunConfirmed(w)
    ensures RunsOnTrack(Step(w, a))
  {
    hide Step;
    hide OnTrack;
    var after := Step(w, a);
    forall q | q in after.processes && after.processes[q].Batch?
      ensures OnTrack(after.rows, after.late, after.processes[q])
    {
      if Actor(a) == Some(q) {
        ActorStaysOnTrack(w, a, q);
      } else {
        OthersStay(w, a, q);
        StepIsUneventful(w, a);
        if Uneventful(w, after) {
          UneventfulKeepsOnTrack(w, after, w.processes[q]);
        } else {
          var key :| ConfirmsRow(w, after, a.p, key);
          ConfirmKeepsOthersOnTrack(w, after, a.p, key, q);
        }
      }
    }
  }

  lemma StepKeepsPrefix(w: World, a: Action)
    requires PartsOwned(w) && RunsOnTrack(w) && OnlyBegunConfirmed(w) && ConfirmedPrefix(w.rows, w.late)
    ensures ConfirmedPrefix(Step(w, a).rows, Step(w, a).late)
  {
    hide Step;
    hide ConfirmedPrefix;
    hide RunsOnTrack;
    hide Uneventful;
    StepIsUneventful(w, a);
    if Uneventful(w, Step(w, a)) {
      UneventfulKeepsPrefix(w, Step(w, a));
    } else {
      var key :| ConfirmsRow(w, Step(w, a), a.p, key);
      ConfirmKeepsPrefix(w, Step(w, a), a.p, key);
    }
  }

  lemma AdvanceBegun(w: World, a: Action, p: ProcessId)
    requires Actor(a) == Some(p) && p in Step(w, a).processes && Step(w, a).processes[p].Batch?
    ensures p in w.processes && w.processes[p].Batch? ==> w.processes[p].source == Step(w, a).processes[p].source
    ensures !(p in w.processes && w.processes[p].Batch?) ==> Step(w, a).processes[p].source in Step(w, a).begun
  {
    hide Advance;
    hide ConfirmedRows;
    hide InPartOrder;
    hide AuthorizeReply;
    match a
    case DoAdvance(_, ctx) =>
      if Step(w, a) != w {
        AdvanceParts(w, p, ctx, p);
      }
    case _ =>
  }

  lemma StepKeepsOnlyBegunConfirmed(w: World, a: Action)
    requires PartsOwned(w) && OnlyBegunConfirmed(w)
    ensures OnlyBegunConfirmed(Step(w, a))
  {
    hide Step;
    var after := Step(w, a);
    StepIsUneventful(w, a);
    LateStep(w, a);
    if !Uneventful(w, after) {
      var key :| ConfirmsRow(w, after, a.p, key);
      assert RunOwnsParts(w.rows, w.home, w.processes[a.p]);
    }
    forall p | p in after.processes && after.processes[p].Batch? ensures after.processes[p].source in after.begun {
      if Actor(a) == Some(p) {
        AdvanceBegun(w, a, p);
      } else {
        OthersStay(w, a, p);
      }
    }
  }

  // ---------------------------------------------------------------- what a run returns

  lemma ReturnIsExact(w: World, p: ProcessId, terminal: bool, reason: Option<Reason>)
    requires ResultsExact(w) && p in w.processes && w.processes[p].Batch?
    requires w.processes[p].confirmed == |ConfirmedRows(w.rows, w.processes[p].source)|
    ensures ResultsExact(Return(w, p, terminal, reason))
  {
  }

  lemma ClaimKeepsConfirmedRows(rows: Ledger, db: Db, key: Key, ctx: Context, now: Time, token: Token,
          source: MessageId)
    ensures ConfirmedRows(Claim(rows, db, key, ctx, now, token).0, source) == ConfirmedRows(rows, source)
  {
    hide Claim;
    var after := Claim(rows, db, key, ctx, now, token).0;
    forall k ensures k in ConfirmedRows(after, source) <==> k in ConfirmedRows(rows, source) {
      ClaimRow(rows, db, key, ctx, now, token, k);
    }
  }

  lemma AdvanceIsExact(w: World, p: ProcessId, ctx: Context)
    requires ResultsExact(w) && p in w.processes && w.processes[p].Batch?
    requires w.processes[p].confirmed == |ConfirmedRows(w.rows, w.processes[p].source)|
    ensures ResultsExact(Advance(w, p, ctx))
  {
    hide Claim;
    hide TurnOf;
    hide Return;
    hide ConfirmedRows;
    match TurnOf(w.processes[p], w.clock)
    case Skip =>
    case Stop(terminal, reason) => ReturnIsExact(w, p, terminal, reason);
    case Try(key) =>
      var (rows, result) := Claim(w.rows, w.db, key, ctx, w.clock, w.nextToken);
      ClaimKeepsConfirmedRows(w.rows, w.db, key, ctx, w.clock, w.nextToken, w.processes[p].source);
      if result.NotClaimed? {
        ReturnIsExact(w.(rows := rows, nextToken := w.nextToken + 1), p, result.terminal, Some(result.reason));
      }
  }

  lemma FailKeepsConfirmedRows(rows: Ledger, key: Key, token: Token, failure: Failure, source: MessageId)
    ensures ConfirmedRows(Fail(rows, key, token, failure), source) == ConfirmedRows(rows, source)
  {
  }

  lemma FailIsExact(w: World, p: ProcessId)
    requires ResultsExact(w) && RunsOnTrack(w)
    ensures ResultsExact(Step(w, DoFail(p)))
  {
    hide Fail;
    hide Return;
    hide ConfirmedRows;
    if Step(w, DoFail(p)) != w {
      var b := w.processes[p];
      var key := b.parts[b.next].key;
      assert OnTrack(w.rows, w.late, b);
      var failed := w.(rows := Fail(w.rows, key, b.phase.token, b.phase.failure));
      FailKeepsConfirmedRows(w.rows, key, b.phase.token, b.phase.failure, b.source);
      if !b.phase.failure.RateLimited? {
        ReturnIsExact(failed, p, true, Some(FailureReason(b.phase.failure)));
      }
    }
  }

  lemma OthersReturnNothing(w: World, a: Action)
    requires !a.DoAdvance? && !a.DoFail?
    ensures Step(w, a).results == w.results
  {
    hide InPartOrder;
    hide AuthorizeReply;
  }

  lemma StepKeepsResultsExact(w: World, a: Action)
    requires ResultsExact(w) && RunsOnTrack(w)
    ensures ResultsExact(Step(w, a))
  {
    hide Advance;
    hide ConfirmedRows;
    hide ResultsExact;
    match a
    case DoAdvance(p, ctx) =>
      if Step(w, a) != w {
        assert OnTrack(w.rows, w.late, w.processes[p]);
        AdvanceIsExact(w, p, ctx);
      }
    case DoFail(p) =>
      hide Step;
      FailIsExact(w, p);
    case _ =>
      hide Step;
      OthersReturnNothing(w, a);
      SameResultsStayExact(w, Step(w, a));
  }

  lemma SameResultsStayExact(w: World, after: World)
    requires ResultsExact(w) && after.results == w.results
    ensures ResultsExact(after)
  {
  }
}
