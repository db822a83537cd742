/** Runs of campaigns from a fresh one, each to something one would not expect.

    In the first a recipient that was sent to is queued again, since two starts had read it before
    either wrote. In the second a recipient that has failed is delivered, since a callback had read it
    before it failed. In the third a recipient is called after it has failed, since a duplicate of the
    exhausted job had claimed it.

    What they break, and exactly when, is in `Campaigns` and `CampaignExhaustion`. */
module CampaignStories {
  import opened Options
  import opened CampaignCallbacks
  import opened Campaigns
  import opened CampaignExhaustion

  /** A run passes through the worlds that its steps lead to. */
  lemma {:induction false} RunAlong(worlds: seq<World>, actions: seq<Action>)
    requires |worlds| == |actions| + 1
    requires forall i :: 0 <= i < |actions| ==> Step(worlds[i], actions[i]) == worlds[i + 1]
    ensures Run(worlds[0], actions) == worlds[|actions|]
    decreases |actions|
  {
    hide Step;
    if actions != [] {
      forall i | 0 <= i < |actions[1..]| ensures Step(worlds[1..][i], actions[1..][i]) == worlds[1..][i + 1] {
        assert Step(worlds[i + 1], actions[i + 1]) == worlds[i + 2];
      }
      RunAlong(worlds[1..], actions[1..]);
    }
  }

  function OnlyRow(status: RecipientStatus, at: Option<Time>, wamid: Option<Wamid>, attempted: bool): seq<Recipient> {
    [Recipient(0, Standing(status, at), wamid, attempted)]
  }

  function At(row: seq<Recipient>, jobs: map<JobId, Job>, launches: map<nat, Launch>, notes: map<nat, Note>,
              calls: seq<Call>): World {
    World(map[0 := Running], row, jobs, launches, notes, calls)
  }

  function OnlyJob(phase: Phase): map<JobId, Job> {
    map[0 := Job(0, 0, phase)]
  }

  function BothJobs(first: Phase, second: Phase): map<JobId, Job> {
    map[0 := Job(0, 0, first), 1 := Job(0, 0, second)]
  }

  const FRESH := World(map[0 := Draft], [], map[], map[], map[], [])
  const PENDING := OnlyRow(Pending, None, None, false)
  const QUEUED := OnlyRow(Queued, None, None, false)
  const CLAIMED := OnlyRow(Queued, None, None, true)
  const SENT := OnlyRow(Sent, None, Some(5), true)
  const SECOND := map[1 := Launch(0, [0])]
  const SENDING := [Call(0, Accepted(5))]

  // ---------------------------------------------------------------- both starts read, one writes and a job calls

  const BEGINNING := [
    DoAddRecipient(0), DoStart(0, 0), DoStart(1, 0), DoLaunch(0, {0}),
    DoEnqueue(0, 0, 0), DoRead(0, true), DoClaim(0), DoCall(0, Accepted(5))]

  const BEGINNING_WORLDS := [
    FRESH,
    FRESH.(recipients := PENDING),
    FRESH.(recipients := PENDING, launches := map[0 := Launch(0, [0])]),
    FRESH.(recipients := PENDING, launches := SECOND[0 := Launch(0, [0])]),
    At(QUEUED, map[], SECOND, map[], []),
    At(QUEUED, OnlyJob(Waiting), SECOND, map[], []),
    At(QUEUED, OnlyJob(Willing), SECOND, map[], []),
    At(CLAIMED, OnlyJob(Claimed), SECOND, map[], []),
    At(CLAIMED, OnlyJob(Told(Accepted(5))), SECOND, map[], SENDING)]

  lemma BothStartsRead(i: nat)
    requires i < 3
    ensures Step(BEGINNING_WORLDS[i], BEGINNING[i]) == BEGINNING_WORLDS[i + 1]
  {
    assert AwaitingStart(PENDING, 0, 1) == AwaitingStart(PENDING, 0, 0) + [0] == [0];
  }

  /** A start that has read the only recipient queues it, whatever its status has become. */
  lemma StartWrites(w: World, l: nat)
    requires |w.recipients| == 1 && l in w.launches && w.launches[l] == Launch(0, [0])
    ensures Step(w, DoLaunch(l, {0}))
         == w.(campaigns := w.campaigns[0 := Running], launches := w.launches - {l},
               recipients := [SetStatus(w.recipients[0], Queued)])
  {
    LaunchedRow(w.recipients, [0], {0}, 0);
    assert Launched(w.recipients, [0], {0}) == [SetStatus(w.recipients[0], Queued)];
  }

  lemma FirstStartWrites()
    ensures Step(BEGINNING_WORLDS[3], BEGINNING[3]) == BEGINNING_WORLDS[4]
  {
    hide Step;
    StartWrites(BEGINNING_WORLDS[3], 0);
    assert SECOND[0 := Launch(0, [0])] - {0} == SECOND;
    assert map[0 := Draft][0 := Running] == map[0 := Running];
  }

  lemma JobReads(i: nat)
    requires i == 4 || i == 5
    ensures Step(BEGINNING_WORLDS[i], BEGINNING[i]) == BEGINNING_WORLDS[i + 1]
  {
    hide AwaitingStart;
    hide Launched;
    hide Answered;
  }

  lemma JobCalls(i: nat)
    requires i == 6 || i == 7
    ensures Step(BEGINNING_WORLDS[i], BEGINNING[i]) == BEGINNING_WORLDS[i + 1]
  {
    hide AwaitingStart;
    hide Launched;
    hide Answered;
  }

  lemma Begins()
    ensures Run(FRESH, BEGINNING) == BEGINNING_WORLDS[8] && Run(FRESH, BEGINNING[..4]) == BEGINNING_WORLDS[4]
  {
    hide Step;
    hide Run;
    forall i | 0 <= i < 8 ensures Step(BEGINNING_WORLDS[i], BEGINNING[i]) == BEGINNING_WORLDS[i + 1] {
      if i < 3 {
        BothStartsRead(i);
      } else if i == 3 {
        FirstStartWrites();
      } else if i < 6 {
        JobReads(i);
      } else {
        JobCalls(i);
      }
    }
    RunAlong(BEGINNING_WORLDS, BEGINNING);
    RunAlong(BEGINNING_WORLDS[..5], BEGINNING[..4]);
  }

  lemma {:induction false} RunInTwo(w: World, a: seq<Action>, b: seq<Action>)
    ensures Run(w, a + b) == Run(Run(w, a), b)
    decreases |a|
  {
    hide Step;
    if a == [] {
      assert a + b == b;
    } else {
      assert (a + b)[1..] == a[1..] + b;
      RunInTwo(Step(w, a[0]), a[1..], b);
    }
  }

  // ---------------------------------------------------------------- sent, and queued again

  const SENT_AND_QUEUED := [DoAnswer(0, true, true), DoLaunch(1, {0})]

  lemma AnswerIsStored()
    ensures Step(BEGINNING_WORLDS[8], DoAnswer(0, true, true)) == At(SENT, map[], SECOND, map[], SENDING)
  {
    hide AwaitingStart;
    hide Launched;
    assert OnlyJob(Told(Accepted(5))) - {0} == map[];
  }

  /** A recipient that was sent to falls back to QUEUED: two starts had read it before either wrote. Its
      claim still keeps it from being called again. */
  lemma StaleStartQueuesAgain()
    ensures Initial(FRESH)
    ensures Run(FRESH, BEGINNING + SENT_AND_QUEUED[..1]).recipients == SENT
    ensures Run(FRESH, BEGINNING + SENT_AND_QUEUED).recipients == OnlyRow(Queued, None, Some(5), true)
    ensures !Claimable(OnlyRow(Queued, None, Some(5), true)[0])
  {
    hide Step;
    hide Run;
    Begins();
    AnswerIsStored();
    var sent := At(SENT, map[], SECOND, map[], SENDING);
    StartWrites(sent, 1);
    RunAlong([BEGINNING_WORLDS[8], sent, Step(sent, DoLaunch(1, {0}))], SENT_AND_QUEUED);
    RunAlong([BEGINNING_WORLDS[8], sent], SENT_AND_QUEUED[..1]);
    RunInTwo(FRESH, BEGINNING, SENT_AND_QUEUED);
    RunInTwo(FRESH, BEGINNING, SENT_AND_QUEUED[..1]);
  }

  // ---------------------------------------------------------------- failed, and delivered

  const FAILED_AND_DELIVERED := [
    DoAnswer(0, true, false), DoReadCallback(0, 0, 5, Callback(DeliveredWord, 9)), DoAnswer(0, true, true),
    DoWriteNote(0)]

  const DELIVERY := map[0 := Marked(0, DeliveredWord, 9)]

  const DELIVERED_WORLDS := [
    At(CLAIMED, OnlyJob(Told(Accepted(5))), SECOND, map[], SENDING),
    At(SENT, OnlyJob(Told(OtherFailure)), SECOND, map[], SENDING),
    At(SENT, OnlyJob(Told(OtherFailure)), SECOND, DELIVERY, SENDING),
    At(OnlyRow(Failed, None, Some(5), true), map[], SECOND, DELIVERY, SENDING),
    At(OnlyRow(Delivered, Some(9), Some(5), true), map[], SECOND, map[], SENDING)]

  lemma JobFails(i: nat)
    requires i == 0 || i == 2
    ensures Step(DELIVERED_WORLDS[i], FAILED_AND_DELIVERED[i]) == DELIVERED_WORLDS[i + 1]
  {
    hide AwaitingStart;
    hide Launched;
    assert OnlyJob(Told(OtherFailure)) - {0} == map[];
  }

  lemma CallbackArrives(i: nat)
    requires i == 1 || i == 3
    ensures Step(DELIVERED_WORLDS[i], FAILED_AND_DELIVERED[i]) == DELIVERED_WORLDS[i + 1]
  {
    hide AwaitingStart;
    hide Launched;
    assert DELIVERY - {0} == map[];
  }

  /** A recipient that has FAILED, since the check for its campaign's completion threw, becomes DELIVERED:
      the callback had read it while it was SENT. */
  lemma StaleCallbackRevivesAFailure()
    ensures Run(FRESH, BEGINNING + FAILED_AND_DELIVERED[..3]).recipients == OnlyRow(Failed, None, Some(5), true)
    ensures Run(FRESH, BEGINNING + FAILED_AND_DELIVERED).recipients == OnlyRow(Delivered, Some(9), Some(5), true)
  {
    hide Step;
    hide Run;
    Begins();
    forall i | 0 <= i < 4 ensures Step(DELIVERED_WORLDS[i], FAILED_AND_DELIVERED[i]) == DELIVERED_WORLDS[i + 1] {
      if i == 0 || i == 2 {
        JobFails(i);
      } else {
        CallbackArrives(i);
      }
    }
    RunAlong(DELIVERED_WORLDS, FAILED_AND_DELIVERED);
    RunAlong(DELIVERED_WORLDS[..4], FAILED_AND_DELIVERED[..3]);
    RunInTwo(FRESH, BEGINNING, FAILED_AND_DELIVERED);
    RunInTwo(FRESH, BEGINNING, FAILED_AND_DELIVERED[..3]);
  }

  // ---------------------------------------------------------------- given up, and called

  const GIVEN_UP_AND_CALLED := [
    DoLaunch(1, {0}), DoEnqueue(0, 0, 0), DoEnqueue(1, 0, 0), DoRead(0, true), DoRead(1, true), DoClaim(0),
    DoCall(0, TooManyRequests), DoAnswer(0, true, true), DoClaim(1), DoExhausted(0, 0), DoCall(1, Accepted(7))]

  const REFUSED := [Call(0, TooManyRequests)]

  const CALLED_WORLDS := [
    At(QUEUED, map[], SECOND, map[], []),
    At(QUEUED, map[], map[], map[], []),
    At(QUEUED, OnlyJob(Waiting), map[], map[], []),
    At(QUEUED, BothJobs(Waiting, Waiting), map[], map[], []),
    At(QUEUED, BothJobs(Willing, Waiting), map[], map[], []),
    At(QUEUED, BothJobs(Willing, Willing), map[], map[], []),
    At(CLAIMED, BothJobs(Claimed, Willing), map[], map[], []),
    At(CLAIMED, BothJobs(Told(TooManyRequests), Willing), map[], map[], REFUSED),
    At(QUEUED, BothJobs(Waiting, Willing), map[], map[], REFUSED),
    At(CLAIMED, BothJobs(Waiting, Claimed), map[], map[], REFUSED),
    At(OnlyRow(Failed, None, None, true), BothJobs(Waiting, Claimed), map[], map[], REFUSED),
    At(OnlyRow(Failed, None, None, true), BothJobs(Waiting, Told(Accepted(7))), map[], map[],
       REFUSED + [Call(0, Accepted(7))])]

  lemma SecondStartWrites()
    ensures Step(CALLED_WORLDS[0], GIVEN_UP_AND_CALLED[0]) == CALLED_WORLDS[1]
  {
    hide Step;
    StartWrites(CALLED_WORLDS[0], 1);
    assert SECOND - {1} == map[];
  }

  lemma BothAreQueued(i: nat)
    requires i == 1 || i == 2
    ensures Step(CALLED_WORLDS[i], GIVEN_UP_AND_CALLED[i]) == CALLED_WORLDS[i + 1]
  {
    hide AwaitingStart;
    hide Launched;
    hide Answered;
  }

  lemma BothRead(i: nat)
    requires i == 3 || i == 4
    ensures Step(CALLED_WORLDS[i], GIVEN_UP_AND_CALLED[i]) == CALLED_WORLDS[i + 1]
  {
    hide AwaitingStart;
    hide Launched;
    hide Answered;
  }

  lemma BothClaim(i: nat)
    requires i == 5 || i == 8
    ensures Step(CALLED_WORLDS[i], GIVEN_UP_AND_CALLED[i]) == CALLED_WORLDS[i + 1]
  {
    hide AwaitingStart;
    hide Launched;
    hide Answered;
  }

  lemma BothCall(i: nat)
    requires i == 6 || i == 10
    ensures Step(CALLED_WORLDS[i], GIVEN_UP_AND_CALLED[i]) == CALLED_WORLDS[i + 1]
  {
    hide AwaitingStart;
    hide Launched;
    hide Answered;
  }

  lemma FirstGivesUp(i: nat)
    requires i == 7 || i == 9
    ensures Step(CALLED_WORLDS[i], GIVEN_UP_AND_CALLED[i]) == CALLED_WORLDS[i + 1]
  {
    hide AwaitingStart;
    hide Launched;
  }

  /** A recipient is called after it has FAILED: the job that was answered 429 for the last time had given
      its claim back, and a duplicate of it, queued by the second start, had taken it. */
  lemma DuplicateCallsAfterTheLastRetry()
    ensures var w := Run(FRESH, BEGINNING[..4] + GIVEN_UP_AND_CALLED[..9]);
            w.recipients == CLAIMED && MaySend(CLAIMED[0], Running) && !NoneClaimed(w, 0)
    ensures Run(FRESH, BEGINNING[..4] + GIVEN_UP_AND_CALLED[..10]).recipients == OnlyRow(Failed, None, None, true)
    ensures Run(FRESH, BEGINNING[..4] + GIVEN_UP_AND_CALLED[..10]).calls == REFUSED
    ensures Run(FRESH, BEGINNING[..4] + GIVEN_UP_AND_CALLED).calls == REFUSED + [Call(0, Accepted(7))]
  {
    hide Step;
    hide Run;
    Begins();
    forall i | 0 <= i < 11 ensures Step(CALLED_WORLDS[i], GIVEN_UP_AND_CALLED[i]) == CALLED_WORLDS[i + 1] {
      if i == 0 {
        SecondStartWrites();
      } else if i < 3 {
        BothAreQueued(i);
      } else if i < 5 {
        BothRead(i);
      } else if i == 5 || i == 8 {
        BothClaim(i);
      } else if i == 6 || i == 10 {
        BothCall(i);
      } else {
        FirstGivesUp(i);
      }
    }
    forall n | n == 9 || n == 10 || n == 11
      ensures Run(FRESH, BEGINNING[..4] + GIVEN_UP_AND_CALLED[..n]) == CALLED_WORLDS[n]
    {
      RunAlong(CALLED_WORLDS[..n + 1], GIVEN_UP_AND_CALLED[..n]);
      RunInTwo(FRESH, BEGINNING[..4], GIVEN_UP_AND_CALLED[..n]);
    }
    assert GIVEN_UP_AND_CALLED[..11] == GIVEN_UP_AND_CALLED;
    assert CALLED_WORLDS[9].jobs[1].phase.Claimed?;
  }
}
