/** What becomes of a campaign's recipient once a job's last retry has been answered 429.

    The job's end writes FAILED and takes nothing back: another job for the same recipient may already
    have it claimed, or have an answer in its hands.

    The two results are exact, over all continuations in which no start writes. */
module CampaignExhaustion {
  import opened Options
  import opened CampaignCallbacks
  import opened Campaigns

  // ---------------------------------------------------------------- calling again

  ghost predicate NoneClaimed(w: World, r: RecipientId) {
    forall j: JobId :: j in w.jobs && w.jobs[j].phase.Claimed? ==> w.jobs[j].recipient != r
  }

  /** Nobody may claim `r` any more, and nobody has it claimed and is about to call. */
  ghost predicate OutOfReach(w: World, r: RecipientId) {
    r < |w.recipients| && w.recipients[r].standing.status != Queued && NoneClaimed(w, r)
  }

  /** No call after those of `w` is to `r`. */
  ghost predicate NoNewCall(w: World, after: World, r: RecipientId) {
    && |w.calls| <= |after.calls| && after.calls[..|w.calls|] == w.calls
    && forall i :: |w.calls| <= i < |after.calls| ==> after.calls[i].recipient != r
  }

  ghost predicate StartFree(actions: seq<Action>) {
    forall i :: 0 <= i < |actions| ==> !actions[i].DoLaunch?
  }

  predicate OnJob(a: Action) {
    || a.DoEnqueue? || a.DoRead? || a.DoSkip? || a.DoClaim? || a.DoCall? || a.DoAnswer? || a.DoCrash? || a.DoRequeue?
  }

  /** What a step other than of a job may do to a recipient's row. */
  lemma OtherStep(w: World, a: Action, r: RecipientId)
    requires !OnJob(a) && !a.DoLaunch? && r < |w.recipients|
    ensures var after := Step(w, a);
            && r < |after.recipients| && after.jobs == w.jobs && after.calls == w.calls
            && after.recipients[r].wamid == w.recipients[r].wamid
            && (after.recipients[r].standing.status == Queued ==> w.recipients[r].standing.status == Queued)
  {
    hide AwaitingStart;
    hide Ignores;
  }

  lemma AnswerStaysOut(w: World, a: Action, r: RecipientId)
    requires OutOfReach(w, r) && a.DoAnswer?
    ensures OutOfReach(Step(w, a), r) && NoNewCall(w, Step(w, a), r)
  {
  }

  lemma JobStepStaysOut(w: World, a: Action, r: RecipientId)
    requires OutOfReach(w, r) && OnJob(a) && !a.DoAnswer?
    ensures OutOfReach(Step(w, a), r) && NoNewCall(w, Step(w, a), r)
  {
  }

  lemma OutOfReachStep(w: World, a: Action, r: RecipientId)
    requires OutOfReach(w, r) && !a.DoLaunch?
    ensures OutOfReach(Step(w, a), r) && NoNewCall(w, Step(w, a), r)
  {
    hide Step;
    if a.DoAnswer? {
      AnswerStaysOut(w, a, r);
    } else if OnJob(a) {
      JobStepStaysOut(w, a, r);
    } else {
      OtherStep(w, a, r);
    }
  }

  lemma {:induction false} OutOfReachStays(w: World, actions: seq<Action>, r: RecipientId)
    requires OutOfReach(w, r) && StartFree(actions)
    ensures NoNewCall(w, Run(w, actions), r)
    decreases |actions|
  {
    hide OutOfReach;
    hide Step;
    if actions != [] {
      var next := Step(w, actions[0]);
      OutOfReachStep(w, actions[0], r);
      OutOfReachStays(next, actions[1..], r);
      assert Run(w, actions).calls[..|w.calls|] == Run(w, actions).calls[..|next.calls|][..|w.calls|];
      forall i | |w.calls| <= i < |Run(w, actions).calls| ensures Run(w, actions).calls[i].recipient != r {
        if i < |next.calls| {
          assert Run(w, actions).calls[..|next.calls|][i] == next.calls[i];
        }
      }
    }
  }

  ghost predicate NeverCalledAgain(w: World, r: RecipientId) {
    forall actions :: StartFree(actions) ==> NoNewCall(w, Run(w, actions), r)
  }

  lemma ClaimedMayCall(w: World, r: RecipientId, j: JobId)
    requires r < |w.recipients| && j in w.jobs && w.jobs[j].phase.Claimed? && w.jobs[j].recipient == r
    ensures !NeverCalledAgain(w, r)
  {
    var call := [DoCall(j, OtherFailure)];
    var after := Step(w, call[0]);
    assert call[1..] == [] && Run(w, call) == Run(after, []) == after;
    assert after.calls[|w.calls|].recipient == r;
    assert StartFree(call) && !NoNewCall(w, after, r);
  }

  lemma Exhausting(w: World, c: CampaignId, r: RecipientId)
    requires r < |w.recipients| && w.recipients[r].campaign == c && MaySend(w.recipients[r], Running)
    ensures var given := Step(w, DoExhausted(r, c));
            && given == w.(recipients := w.recipients[r := SetStatus(w.recipients[r], Failed)])
            && (NoneClaimed(given, r) <==> NoneClaimed(w, r))
  {
  }

  /** A recipient that a job's last retry leaves queued is FAILED. It is never called again, whatever
      jobs, callbacks and replies do and unless a start queues it, if and only if no duplicate of the
      job has it claimed at that moment: such a one calls it still. */
  lemma ExhaustedIsNotCalledAgainIff(w: World, c: CampaignId, r: RecipientId)
    requires r < |w.recipients| && w.recipients[r].campaign == c && MaySend(w.recipients[r], Running)
    ensures r < |Step(w, DoExhausted(r, c)).recipients|
    ensures Step(w, DoExhausted(r, c)).recipients[r].standing.status == Failed
    ensures NeverCalledAgain(Step(w, DoExhausted(r, c)), r) <==> NoneClaimed(w, r)
  {
    Exhausting(w, c, r);
    hide Step;
    var given := Step(w, DoExhausted(r, c));
    if NoneClaimed(w, r) {
      forall actions | StartFree(actions) ensures NoNewCall(given, Run(given, actions), r) {
        OutOfReachStays(given, actions, r);
      }
    } else {
      var j: JobId :| j in w.jobs && w.jobs[j].phase.Claimed? && w.jobs[j].recipient == r;
      ClaimedMayCall(given, r, j);
    }
  }

  // ---------------------------------------------------------------- being sent after all

  /** Whoever has been reached, or is about to be marked, has its message identifier. */
  ghost predicate Identified(w: World) {
    && (forall r: nat :: r < |w.recipients| && IsReached(w.recipients[r].standing.status) ==>
          w.recipients[r].wamid.Some?)
    && (forall n: nat :: n in w.notes ==>
          w.notes[n].recipient < |w.recipients| && w.recipients[w.notes[n].recipient].wamid.Some?)
  }

  /** No identifier is lost and nobody is reached without one. */
  ghost predicate Quiet(w: World, after: World) {
    && |w.recipients| <= |after.recipients| && after.notes == w.notes
    && (forall r: nat :: r < |w.recipients| && w.recipients[r].wamid.Some? ==> after.recipients[r].wamid.Some?)
    && (forall r: nat :: r < |after.recipients| && IsReached(after.recipients[r].standing.status) ==>
          || after.recipients[r].wamid.Some?
          || (r < |w.recipients| && IsReached(w.recipients[r].standing.status)))
  }

  lemma LaunchIsQuiet(w: World, a: Action)
    requires a.DoLaunch?
    ensures Quiet(w, Step(w, a))
  {
    if a.l in w.launches {
      forall r: nat | r < |w.recipients|
        ensures Step(w, a).recipients[r].wamid == w.recipients[r].wamid
        ensures IsReached(Step(w, a).recipients[r].standing.status) ==> IsReached(w.recipients[r].standing.status)
      {
        LaunchedRow(w.recipients, w.launches[a.l].ids, a.optedIn, r);
      }
    }
  }

  lemma AnswerIsQuiet(w: World, a: Action)
    requires a.DoAnswer?
    ensures Quiet(w, Step(w, a))
  {
  }

  lemma JobStepIsQuiet(w: World, a: Action)
    requires OnJob(a) && !a.DoAnswer?
    ensures Quiet(w, Step(w, a))
  {
    hide MaySend;
  }

  lemma CampaignStepIsQuiet(w: World, a: Action)
    requires !OnJob(a) && !a.DoLaunch? && !a.DoReadCallback? && !a.DoReadReply? && !a.DoWriteNote?
    ensures Quiet(w, Step(w, a))
  {
    hide AwaitingStart;
  }

  lemma QuietKeepsIdentified(w: World, after: World)
    requires Identified(w) && Quiet(w, after)
    ensures Identified(after)
  {
  }

  lemma StepKeepsIdentified(w: World, a: Action)
    requires Identified(w)
    ensures Identified(Step(w, a))
  {
    if a.DoReadCallback? || a.DoReadReply? || a.DoWriteNote? {
      hide Ignores;
    } else {
      hide Step;
      hide Identified;
      hide Quiet;
      if a.DoLaunch? {
        LaunchIsQuiet(w, a);
      } else if a.DoAnswer? {
        AnswerIsQuiet(w, a);
      } else if OnJob(a) {
        JobStepIsQuiet(w, a);
      } else {
        CampaignStepIsQuiet(w, a);
      }
      QuietKeepsIdentified(w, Step(w, a));
    }
  }

  lemma {:induction false} EveryReachableWorldIsIdentified(w: World, actions: seq<Action>)
    requires Identified(w)
    ensures Identified(Run(w, actions))
    decreases |actions|
  {
    hide Identified;
    hide Step;
    if actions != [] {
      StepKeepsIdentified(w, actions[0]);
      EveryReachableWorldIsIdentified(Step(w, actions[0]), actions[1..]);
    }
  }

  /** No job has `r` claimed and is still to call, or has an accepted answer still to store. */
  ghost predicate NoneMayStore(w: World, r: RecipientId) {
    forall j: JobId :: j in w.jobs && MayStore(w.jobs[j].phase) ==> w.jobs[j].recipient != r
  }

  predicate MayStore(phase: Phase) {
    phase.Claimed? || (phase.Told? && phase.answer.Accepted?)
  }

  ghost predicate Settled(w: World, r: RecipientId) {
    && r < |w.recipients| && w.recipients[r].wamid.None? && w.recipients[r].standing.status in {Failed, Skipped}
    && NoneMayStore(w, r) && forall n: nat :: n in w.notes ==> w.notes[n].recipient != r
  }

  lemma AnswerStaysSettled(w: World, a: Action, r: RecipientId)
    requires Settled(w, r) && a.DoAnswer?
    ensures Settled(Step(w, a), r)
  {
  }

  lemma JobStepStaysSettled(w: World, a: Action, r: RecipientId)
    requires Settled(w, r) && OnJob(a) && !a.DoAnswer?
    ensures Settled(Step(w, a), r)
  {
  }

  lemma OtherStepStaysSettled(w: World, a: Action, r: RecipientId)
    requires Settled(w, r) && !OnJob(a) && !a.DoLaunch?
    ensures Settled(Step(w, a), r)
  {
    hide AwaitingStart;
    hide Ignores;
    hide MayStore;
  }

  lemma SettledStep(w: World, a: Action, r: RecipientId)
    requires Settled(w, r) && !a.DoLaunch?
    ensures Settled(Step(w, a), r)
  {
    hide Step;
    hide Settled;
    if a.DoAnswer? {
      AnswerStaysSettled(w, a, r);
    } else if OnJob(a) {
      JobStepStaysSettled(w, a, r);
    } else {
      OtherStepStaysSettled(w, a, r);
    }
  }

  lemma {:induction false} SettledStays(w: World, actions: seq<Action>, r: RecipientId)
    requires Settled(w, r) && StartFree(actions)
    ensures Settled(Run(w, actions), r)
    decreases |actions|
  {
    hide Settled;
    hide Step;
    if actions != [] {
      SettledStep(w, actions[0], r);
      SettledStays(Step(w, actions[0]), actions[1..], r);
    }
  }

  ghost predicate StaysUnsent(w: World, r: RecipientId) {
    forall actions :: StartFree(actions) ==> Unsent(Run(w, actions), r)
  }

  predicate Unsent(w: World, r: RecipientId) {
    r < |w.recipients| && w.recipients[r].standing.status in {Failed, Skipped}
  }

  lemma TwoSteps(w: World, a: Action, b: Action)
    ensures Run(w, [a, b]) == Step(Step(w, a), b) && Run(w, [b]) == Step(w, b)
  {
    hide Step;
    assert [a, b][1..] == [b] && [b][1..] == [];
    assert Run(Step(w, a), [b]) == Run(Step(Step(w, a), b), []);
  }

  lemma HolderMaySend(w: World, r: RecipientId, j: JobId)
    requires r < |w.recipients| && j in w.jobs && w.jobs[j].recipient == r
    requires MayStore(w.jobs[j].phase)
    ensures !StaysUnsent(w, r)
  {
    var call, store := DoCall(j, Accepted(0)), DoAnswer(j, true, true);
    TwoSteps(w, call, store);
    if w.jobs[j].phase.Claimed? {
      assert Step(Step(w, call), store).recipients[r].standing.status == Sent;
      assert StartFree([call, store]) && !Unsent(Run(w, [call, store]), r);
    } else {
      assert Step(w, store).recipients[r].standing.status == Sent;
      assert StartFree([store]) && !Unsent(Run(w, [store]), r);
    }
  }

  /** And it stays FAILED, or SKIPPED by a job that had read it before, unless a start queues it, if and
      only if no duplicate of the job has it claimed or has an accepted answer to store. */
  lemma ExhaustedStaysUnsentIff(w: World, c: CampaignId, r: RecipientId)
    requires Identified(w)
    requires r < |w.recipients| && w.recipients[r].campaign == c && MaySend(w.recipients[r], Running)
    ensures StaysUnsent(Step(w, DoExhausted(r, c)), r) <==> NoneMayStore(w, r)
  {
    Exhausting(w, c, r);
    hide Step;
    var given := Step(w, DoExhausted(r, c));
    if NoneMayStore(w, r) {
      forall actions | StartFree(actions) ensures Unsent(Run(given, actions), r) {
        SettledStays(given, actions, r);
      }
    } else {
      var j: JobId :| j in w.jobs && MayStore(w.jobs[j].phase) && w.jobs[j].recipient == r;
      HolderMaySend(given, r, j);
    }
  }
}
