/** Which step of a campaign gives a recipient, a claim and the campaign their new state, and on whose
    consent Meta is called.

    The effects are told from the action and what it finds, for every world and not only for those that
    can be reached. That only the willing are called is about all runs, and that they are called is about
    the job that has read them. */
module CampaignEffects {
  import opened Options
  import opened CampaignCallbacks
  import opened Campaigns

  // ---------------------------------------------------------------- one recipient

  /** The job `j` is on the recipient `r`. */
  predicate JobOn(w: World, j: JobId, r: RecipientId) {
    j in w.jobs && w.jobs[j].recipient == r && r < |w.recipients|
  }

  predicate LaunchReaches(w: World, a: Action, r: RecipientId) {
    a.DoLaunch? && a.l in w.launches && r in w.launches[a.l].ids
  }

  /** The job is told `answer`, as an accepted one whose storing does not fail. */
  predicate AnswerIs(w: World, a: Action, r: RecipientId, answer: Answer) {
    && a.DoAnswer? && JobOn(w, a.j, r) && w.jobs[a.j].phase == Told(answer)
    && (answer.Accepted? ==> a.stored)
  }

  predicate AnswerFails(w: World, a: Action, r: RecipientId) {
    AnswerIs(w, a, r, NoIdentifier) || AnswerIs(w, a, r, OtherFailure)
  }

  predicate GivesUp(w: World, a: Action, r: RecipientId) {
    && a.DoExhausted? && a.r == r && r < |w.recipients| && w.recipients[r].campaign == a.c
    && w.recipients[r].standing.status == Queued && w.recipients[r].wamid == None
  }

  predicate WritesWord(w: World, a: Action, r: RecipientId, word: Word) {
    a.DoWriteNote? && a.n in w.notes && w.notes[a.n].Marked? && w.notes[a.n].recipient == r && w.notes[a.n].word == word
  }

  predicate WritesReply(w: World, a: Action, r: RecipientId) {
    a.DoWriteNote? && a.n in w.notes && w.notes[a.n] == Replying(r)
  }

  /** The step writes `status` to the recipient. */
  predicate Becomes(w: World, a: Action, r: RecipientId, status: RecipientStatus) {
    match status
    case Pending => false
    case Queued => LaunchReaches(w, a, r) && r in a.optedIn
    case Skipped =>
      (LaunchReaches(w, a, r) && r !in a.optedIn) || (a.DoSkip? && JobOn(w, a.j, r) && w.jobs[a.j].phase == Unwilling)
    case Sent => StoresSent(w, a, r) || WritesWord(w, a, r, SentWord)
    case Delivered => WritesWord(w, a, r, DeliveredWord)
    case Read => WritesWord(w, a, r, ReadWord)
    case Failed => AnswerFails(w, a, r) || GivesUp(w, a, r) || WritesWord(w, a, r, FailedWord)
    case Replied => WritesReply(w, a, r)
  }

  predicate Untouched(w: World, a: Action, r: RecipientId) {
    && !Becomes(w, a, r, Queued) && !Becomes(w, a, r, Skipped) && !Becomes(w, a, r, Sent)
    && !Becomes(w, a, r, Delivered) && !Becomes(w, a, r, Read) && !Becomes(w, a, r, RecipientStatus.Failed)
    && !Becomes(w, a, r, Replied)
  }

  predicate StatusFollows(w: World, a: Action, after: World, r: RecipientId) {
    && r < |w.recipients| && r < |after.recipients|
    && (Becomes(w, a, r, Queued) ==> after.recipients[r].standing.status == Queued)
    && (Becomes(w, a, r, Skipped) ==> after.recipients[r].standing.status == Skipped)
    && (Becomes(w, a, r, Sent) ==> after.recipients[r].standing.status == Sent)
    && (Becomes(w, a, r, Delivered) ==> after.recipients[r].standing.status == Delivered)
    && (Becomes(w, a, r, Read) ==> after.recipients[r].standing.status == Read)
    && (Becomes(w, a, r, RecipientStatus.Failed) ==> after.recipients[r].standing.status == RecipientStatus.Failed)
    && (Becomes(w, a, r, Replied) ==> after.recipients[r].standing.status == Replied)
    && (Untouched(w, a, r) ==> after.recipients[r].standing.status == w.recipients[r].standing.status)
  }

  /** Which step gives a recipient which status; every other step leaves it. */
  lemma StatusAfter(w: World, a: Action, r: RecipientId)
    requires r < |w.recipients|
    ensures StatusFollows(w, a, Step(w, a), r)
  {
    hide Step;
    hide StatusFollows;
    if a.DoLaunch? {
      LaunchStatus(w, a, r);
    } else if a.DoAnswer? {
      AnswerStatus(w, a, r);
    } else if a.DoWriteNote? {
      NoteStatus(w, a, r);
    } else if a.DoSkip? || a.DoExhausted? {
      SkipStatus(w, a, r);
    } else {
      OtherStatus(w, a, r);
    }
  }

  lemma LaunchStatus(w: World, a: Action, r: RecipientId)
    requires a.DoLaunch? && r < |w.recipients|
    ensures StatusFollows(w, a, Step(w, a), r)
  {
    if a.l in w.launches {
      LaunchedRow(w.recipients, w.launches[a.l].ids, a.optedIn, r);
      hide Launched;
    }
  }

  lemma AnswerStatus(w: World, a: Action, r: RecipientId)
    requires a.DoAnswer? && r < |w.recipients|
    ensures StatusFollows(w, a, Step(w, a), r)
  {
  }

  lemma NoteStatus(w: World, a: Action, r: RecipientId)
    requires a.DoWriteNote? && r < |w.recipients|
    ensures StatusFollows(w, a, Step(w, a), r)
  {
  }

  lemma SkipStatus(w: World, a: Action, r: RecipientId)
    requires (a.DoSkip? || a.DoExhausted?) && r < |w.recipients|
    ensures StatusFollows(w, a, Step(w, a), r)
  {
  }

  lemma OtherStatus(w: World, a: Action, r: RecipientId)
    requires !a.DoLaunch? && !a.DoAnswer? && !a.DoWriteNote? && !a.DoSkip? && !a.DoExhausted? && r < |w.recipients|
    ensures StatusFollows(w, a, Step(w, a), r)
  {
    hide Ignores;
    hide AwaitingStart;
  }

  // ---------------------------------------------------------------- its claim, identifier and timestamp

  predicate Claims(w: World, a: Action, r: RecipientId) {
    && a.DoClaim? && JobOn(w, a.j, r) && w.jobs[a.j].phase == Willing && !w.recipients[r].attempted
    && w.recipients[r].standing.status == Queued && w.recipients[r].wamid == None
  }

  predicate ClaimFollows(w: World, a: Action, after: World, r: RecipientId) {
    && r < |w.recipients| && r < |after.recipients| && after.recipients[r].campaign == w.recipients[r].campaign
    && (after.recipients[r].attempted <==>
          Claims(w, a, r) || (w.recipients[r].attempted && !AnswerIs(w, a, r, TooManyRequests)))
    && after.recipients[r].wamid
       == (if StoresSent(w, a, r) then Some(w.jobs[a.j].phase.answer.wamid) else w.recipients[r].wamid)
    && after.recipients[r].standing.metaTimestamp
       == (if a.DoWriteNote? && a.n in w.notes && w.notes[a.n].Marked? && w.notes[a.n].recipient == r
           then Some(w.notes[a.n].at) else w.recipients[r].standing.metaTimestamp)
  }

  /** A recipient is claimed by the claim of a willing job and given back by a 429 alone; its identifier
      is that of the last accepted answer stored, and its timestamp that of the last callback written. */
  lemma ClaimAfter(w: World, a: Action, r: RecipientId)
    requires r < |w.recipients|
    ensures ClaimFollows(w, a, Step(w, a), r)
  {
    hide Step;
    hide ClaimFollows;
    if a.DoLaunch? {
      LaunchKeepsClaim(w, a, r);
    } else if a.DoAnswer? {
      AnswerClaim(w, a, r);
    } else if a.DoClaim? {
      ClaimClaims(w, a, r);
    } else {
      OthersKeepClaim(w, a, r);
    }
  }

  lemma LaunchKeepsClaim(w: World, a: Action, r: RecipientId)
    requires a.DoLaunch? && r < |w.recipients|
    ensures ClaimFollows(w, a, Step(w, a), r)
  {
    if a.l in w.launches {
      LaunchedRow(w.recipients, w.launches[a.l].ids, a.optedIn, r);
      hide Launched;
    }
  }

  lemma AnswerClaim(w: World, a: Action, r: RecipientId)
    requires a.DoAnswer? && r < |w.recipients|
    ensures ClaimFollows(w, a, Step(w, a), r)
  {
  }

  lemma ClaimClaims(w: World, a: Action, r: RecipientId)
    requires a.DoClaim? && r < |w.recipients|
    ensures ClaimFollows(w, a, Step(w, a), r)
  {
  }

  lemma OthersKeepClaim(w: World, a: Action, r: RecipientId)
    requires !a.DoLaunch? && !a.DoAnswer? && !a.DoClaim? && r < |w.recipients|
    ensures ClaimFollows(w, a, Step(w, a), r)
  {
    hide Ignores;
    hide AwaitingStart;
  }

  // ---------------------------------------------------------------- the campaign

  predicate Ends(a: Action, c: CampaignId, before: CampaignStatus, status: CampaignStatus) {
    || (status == Paused && a == DoPause(c) && before == Running)
    || (status == Cancelled && a == DoCancel(c) && before in {Draft, Ready, Running, Paused})
    || (status == CampaignStatus.Completed && a == DoCompleteCampaign(c) && before == Running)
  }

  predicate CampaignFollows(w: World, a: Action, after: World, c: CampaignId) {
    var started := a.DoLaunch? && a.l in w.launches && w.launches[a.l].campaign == c;
    && c in w.campaigns && c in after.campaigns
    && (started ==> after.campaigns[c] == Running)
    && (Ends(a, c, w.campaigns[c], Paused) ==> after.campaigns[c] == Paused)
    && (Ends(a, c, w.campaigns[c], Cancelled) ==> after.campaigns[c] == Cancelled)
    && (Ends(a, c, w.campaigns[c], CampaignStatus.Completed) ==> after.campaigns[c] == CampaignStatus.Completed)
    && (after.campaigns[c] != w.campaigns[c] ==> started || Ends(a, c, w.campaigns[c], after.campaigns[c]))
  }

  /** A start makes its campaign RUNNING whatever it is by then; only a running campaign is paused or
      completed, and only one that is not over is cancelled. Everything else leaves its status. */
  lemma CampaignAfter(w: World, a: Action, c: CampaignId)
    requires c in w.campaigns
    ensures CampaignFollows(w, a, Step(w, a), c)
  {
    hide Step;
    hide CampaignFollows;
    if a.DoLaunch? || a.DoPause? || a.DoCancel? || a.DoCompleteCampaign? {
      CampaignStep(w, a, c);
    } else {
      OthersKeepCampaign(w, a, c);
    }
  }

  lemma CampaignStep(w: World, a: Action, c: CampaignId)
    requires c in w.campaigns && (a.DoLaunch? || a.DoPause? || a.DoCancel? || a.DoCompleteCampaign?)
    ensures CampaignFollows(w, a, Step(w, a), c)
  {
    hide Launched;
  }

  lemma OthersKeepCampaign(w: World, a: Action, c: CampaignId)
    requires c in w.campaigns && !a.DoLaunch? && !a.DoPause? && !a.DoCancel? && !a.DoCompleteCampaign?
    ensures CampaignFollows(w, a, Step(w, a), c)
  {
    hide AwaitingStart;
    hide Ignores;
    hide Answered;
    hide Noted;
  }

  // ---------------------------------------------------------------- what is read before it is written

  /** A start that may go ahead: of a campaign that is not running and not over, with somebody waiting. */
  predicate MayStart(w: World, a: Action) {
    && a.DoStart? && a.l !in w.launches && a.c in w.campaigns && w.campaigns[a.c] in {Draft, Ready, Paused}
    && exists r: nat | r < |w.recipients| ::
         w.recipients[r].campaign == a.c && w.recipients[r].standing.status in {Pending, Queued}
  }

  ghost predicate ReadsWaiting(w: World, after: World, l: nat, c: CampaignId) {
    && l in after.launches && after.launches[l].campaign == c
    && forall r: nat :: r in after.launches[l].ids <==>
         r < |w.recipients| && w.recipients[r].campaign == c && w.recipients[r].standing.status in {Pending, Queued}
  }

  /** A start reads exactly the recipients of its campaign that are pending or queued, and only its own
      write uses up what it has read. */
  lemma LaunchesAfter(w: World, a: Action, l: nat)
    ensures l in Step(w, a).launches <==>
              (MayStart(w, a) && a.l == l) || (l in w.launches && !(a.DoLaunch? && a.l == l))
    ensures MayStart(w, a) && a.l == l ==> ReadsWaiting(w, Step(w, a), l, a.c)
    ensures l in w.launches && l in Step(w, a).launches ==> Step(w, a).launches[l] == w.launches[l]
  {
    if a.DoStart? {
      StartReads(w, a);
    } else {
      OthersKeepLaunches(w, a);
    }
    hide Step;
    hide ReadsWaiting;
  }

  lemma StartReads(w: World, a: Action)
    requires a.DoStart?
    ensures MayStart(w, a) ==>
              ReadsWaiting(w, Step(w, a), a.l, a.c)
                && Step(w, a).launches == w.launches[a.l := Step(w, a).launches[a.l]]
    ensures !MayStart(w, a) ==> Step(w, a) == w
  {
    var ids := AwaitingStart(w.recipients, a.c, |w.recipients|);
    assert ids != [] ==> ids[0] in ids;
    hide AwaitingStart;
  }

  lemma OthersKeepLaunches(w: World, a: Action)
    requires !a.DoStart?
    ensures Step(w, a).launches == if a.DoLaunch? then w.launches - {a.l} else w.launches
  {
    hide AwaitingStart;
    hide Ignores;
    hide Launched;
    hide Answered;
    hide Noted;
  }

  /** What a callback or a reply has read lets it write: a callback of the recipient's own message that is
      not out of order, and a reply of a recipient that has been reached. */
  predicate MayNote(w: World, a: Action, n: nat, note: Note) {
    && n !in w.notes && note.recipient < |w.recipients|
    && match note
       case Marked(r, word, at) =>
         && a.DoReadCallback? && a.n == n && a.r == r && a.cb == Callback(word, at)
         && w.recipients[r].wamid == Some(a.wamid) && !Ignores(w.recipients[r].standing, a.cb)
       case Replying(r) =>
         a.DoReadReply? && a.n == n && a.r == r && w.recipients[r].standing.status in {Sent, Delivered, Read}
  }

  lemma NotesAfter(w: World, a: Action, n: nat, note: Note)
    requires forall m :: m in w.notes ==> w.notes[m].recipient < |w.recipients|
    ensures (n in Step(w, a).notes && Step(w, a).notes[n] == note) <==>
              || MayNote(w, a, n, note)
              || (n in w.notes && w.notes[n] == note && !(a.DoWriteNote? && a.n == n))
  {
    hide AwaitingStart;
    hide Ignores;
    hide Launched;
    hide Answered;
    hide Noted;
  }

  // ---------------------------------------------------------------- on whose consent

  /** At step `i` of the run a job read `r` as consenting, queued, unsent and of a running campaign. */
  ghost predicate ReadWilling(w: World, actions: seq<Action>, i: nat, r: RecipientId) {
    && i < |actions| && actions[i].DoRead? && actions[i].consents
    && Willingly(Run(w, actions[..i]), actions[i].j, r)
  }

  predicate Willingly(w: World, j: JobId, r: RecipientId) {
    && JobOn(w, j, r) && w.jobs[j].phase == Waiting && w.recipients[r].campaign == w.jobs[j].campaign
    && w.jobs[j].campaign in w.campaigns && w.campaigns[w.jobs[j].campaign] == Running
    && w.recipients[r].standing.status == Queued && w.recipients[r].wamid == None
  }

  ghost predicate WasRead(w: World, actions: seq<Action>, r: RecipientId) {
    exists i: nat :: ReadWilling(w, actions, i, r)
  }

  /** Whoever has been called, or is about to be, has been read as willing. */
  ghost predicate AllRead(w: World, actions: seq<Action>, end: World) {
    && (forall j: JobId :: OfWilling(end, j) ==> WasRead(w, actions, end.jobs[j].recipient))
    && (forall n :: 0 <= n < |end.calls| ==> WasRead(w, actions, end.calls[n].recipient))
  }

  lemma {:induction false} RunOneMore(w: World, actions: seq<Action>, a: Action)
    ensures Run(w, actions + [a]) == Step(Run(w, actions), a)
    decreases |actions|
  {
    hide Step;
    if actions == [] {
      assert [a][1..] == [] && [] + [a] == [a];
      assert Run(w, [a]) == Run(Step(w, a), []);
    } else {
      assert (actions + [a])[1..] == actions[1..] + [a];
      RunOneMore(Step(w, actions[0]), actions[1..], a);
    }
  }

  lemma WasReadStays(w: World, actions: seq<Action>, a: Action, r: RecipientId)
    requires WasRead(w, actions, r)
    ensures WasRead(w, actions + [a], r)
  {
    var i: nat :| ReadWilling(w, actions, i, r);
    assert (actions + [a])[..i] == actions[..i];
    assert ReadWilling(w, actions + [a], i, r);
  }

  lemma NowRead(w: World, actions: seq<Action>, a: Action, r: RecipientId)
    requires a.DoRead? && a.consents && Willingly(Run(w, actions), a.j, r)
    ensures WasRead(w, actions + [a], r)
  {
    assert (actions + [a])[..|actions|] == actions;
    assert ReadWilling(w, actions + [a], |actions|, r);
  }

  predicate OfWilling(w: World, j: JobId) {
    j in w.jobs && (w.jobs[j].phase.Willing? || w.jobs[j].phase.Claimed?)
  }

  /** A job that is willing or has its claim was so before, or has just read; and a call is made by a job
      with its claim. */
  ghost predicate WillingFollows(w: World, a: Action, after: World) {
    && (forall j: JobId :: OfWilling(after, j) ==>
          && j in w.jobs && after.jobs[j].recipient == w.jobs[j].recipient
          && (OfWilling(w, j) || (a.DoRead? && a.consents && a.j == j && Willingly(w, j, w.jobs[j].recipient))))
    && (after.calls == w.calls
        || (a.DoCall? && OfWilling(w, a.j) && after.calls == w.calls + [Call(w.jobs[a.j].recipient, a.answer)]))
  }

  lemma AnswerWilling(w: World, a: Action)
    requires a.DoAnswer?
    ensures WillingFollows(w, a, Step(w, a))
  {
    hide Answered;
  }

  lemma JobWilling(w: World, a: Action)
    requires a.DoEnqueue? || a.DoRead? || a.DoSkip? || a.DoCrash? || a.DoRequeue?
    ensures WillingFollows(w, a, Step(w, a))
  {
  }

  lemma CallWilling(w: World, a: Action)
    requires a.DoClaim? || a.DoCall?
    ensures WillingFollows(w, a, Step(w, a))
  {
  }

  lemma OtherWilling(w: World, a: Action)
    requires !a.DoAnswer? && !a.DoEnqueue? && !a.DoRead? && !a.DoSkip? && !a.DoCrash? && !a.DoRequeue?
    requires !a.DoClaim? && !a.DoCall?
    ensures WillingFollows(w, a, Step(w, a))
  {
    hide AwaitingStart;
    hide Ignores;
    hide Launched;
    hide Exhausted;
    hide Noted;
  }

  lemma WillingStep(w: World, a: Action)
    ensures WillingFollows(w, a, Step(w, a))
  {
    hide Step;
    hide WillingFollows;
    if a.DoAnswer? {
      AnswerWilling(w, a);
    } else if a.DoClaim? || a.DoCall? {
      CallWilling(w, a);
    } else if a.DoEnqueue? || a.DoRead? || a.DoSkip? || a.DoCrash? || a.DoRequeue? {
      JobWilling(w, a);
    } else {
      OtherWilling(w, a);
    }
  }

  lemma StepKeepsAllRead(w: World, actions: seq<Action>, a: Action)
    requires AllRead(w, actions, Run(w, actions))
    ensures AllRead(w, actions + [a], Step(Run(w, actions), a))
  {
    hide Step;
    hide Run;
    hide WasRead;
    hide Willingly;
    var end := Run(w, actions);
    var after := Step(end, a);
    WillingStep(end, a);
    forall r: RecipientId | WasRead(w, actions, r) ensures WasRead(w, actions + [a], r) {
      WasReadStays(w, actions, a, r);
    }
    forall j: JobId | OfWilling(after, j) ensures WasRead(w, actions + [a], after.jobs[j].recipient) {
      if !OfWilling(end, j) {
        NowRead(w, actions, a, after.jobs[j].recipient);
      }
    }
    forall n | 0 <= n < |after.calls| ensures WasRead(w, actions + [a], after.calls[n].recipient) {
      if n < |end.calls| {
        assert after.calls[n] == end.calls[n];
      }
    }
  }

  lemma {:induction false} RunKeepsAllRead(w: World, actions: seq<Action>)
    requires Initial(w)
    ensures AllRead(w, actions, Run(w, actions))
    decreases |actions|
  {
    hide Step;
    hide AllRead;
    if actions == [] {
      NothingToRead(w);
    } else {
      var front, last := actions[..|actions| - 1], actions[|actions| - 1];
      RunKeepsAllRead(w, front);
      StepKeepsAllRead(w, front, last);
      RunOneMore(w, front, last);
      assert front + [last] == actions;
    }
  }

  lemma NothingToRead(w: World)
    requires Initial(w)
    ensures AllRead(w, [], Run(w, []))
  {
  }

  /** Over every interleaving, Meta is called only for a recipient that some job had read as consenting,
      queued and unsent while its campaign was running. */
  lemma OnlyTheWillingAreCalled(w: World, actions: seq<Action>, n: nat)
    requires Initial(w) && n < |Run(w, actions).calls|
    ensures exists i: nat :: ReadWilling(w, actions, i, Run(w, actions).calls[n].recipient)
  {
    hide Run;
    RunKeepsAllRead(w, actions);
    assert WasRead(w, actions, Run(w, actions).calls[n].recipient);
  }

  // ---------------------------------------------------------------- and is called

  lemma WillingReads(w: World, j: JobId, r: RecipientId)
    requires Willingly(w, j, r)
    ensures Step(w, DoRead(j, true)) == Goto(w, j, Willing)
  {
  }

  lemma WillingClaims(w: World, j: JobId, r: RecipientId)
    requires JobOn(w, j, r) && w.jobs[j].phase == Willing && Claimable(w.recipients[r])
    ensures var after := Step(w, DoClaim(j));
            JobOn(after, j, r) && after.jobs[j].phase == Claimed && after.calls == w.calls
  {
  }

  lemma ClaimedCalls(w: World, j: JobId, r: RecipientId, answer: Answer)
    requires JobOn(w, j, r) && w.jobs[j].phase == Claimed
    ensures Step(w, DoCall(j, answer)).calls == w.calls + [Call(r, answer)]
  {
  }

  /** A consenting recipient that nobody has claimed is called by the next job that reads, claims and calls. */
  lemma WillingIsCalled(w: World, j: JobId, r: RecipientId, answer: Answer)
    requires Willingly(w, j, r) && !w.recipients[r].attempted
    ensures Step(Step(Step(w, DoRead(j, true)), DoClaim(j)), DoCall(j, answer)).calls == w.calls + [Call(r, answer)]
  {
    hide Step;
    var willing := Step(w, DoRead(j, true));
    WillingReads(w, j, r);
    WillingClaims(willing, j, r);
    ClaimedCalls(Step(willing, DoClaim(j)), j, r, answer);
  }

  /** A 429 loses nothing: the job that got it may read, claim and call again, as long as its campaign is
      running and the recipient is still queued. */
  lemma RateLimitedJobCallsAgain(w: World, j: JobId, r: RecipientId)
    requires JobOn(w, j, r) && w.jobs[j].phase == Told(TooManyRequests)
             && w.recipients[r].campaign == w.jobs[j].campaign
    requires w.recipients[r].standing.status == Queued && w.recipients[r].wamid == None
    requires w.jobs[j].campaign in w.campaigns && w.campaigns[w.jobs[j].campaign] == Running
    ensures forall stored, completed ::
              var waiting := Step(w, DoAnswer(j, stored, completed));
              Willingly(waiting, j, r) && !waiting.recipients[r].attempted
  {
  }
}
