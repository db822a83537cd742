/** Sending the template messages of campaigns: start, pause, cancel, the send job and its retries,
    in any interleaving of any number of jobs. */
module Campaigns {
  import opened Options
  import opened CampaignCallbacks

  type CampaignId = nat
  type RecipientId = nat
  type JobId = nat
  type Wamid = nat

  datatype CampaignStatus = Draft | Ready | Running | Paused | Completed | Cancelled

  datatype Recipient = Recipient(campaign: CampaignId, standing: Standing, wamid: Option<Wamid>, attempted: bool)

  /** Meta's answer to one call; a crash in between leaves no answer. */
  datatype Answer = Accepted(wamid: Wamid) | NoIdentifier | TooManyRequests | OtherFailure

  // ---------------------------------------------------------------- transactions on a recipient

  function SetStatus(row: Recipient, status: RecipientStatus): Recipient {
    row.(standing := row.standing.(status := status))
  }

  predicate MaySend(row: Recipient, campaign: CampaignStatus) {
    row.wamid.None? && row.standing.status == Queued && campaign == Running
  }

  predicate Claimable(row: Recipient) {
    row.standing.status == Queued && row.wamid.None? && !row.attempted
  }

  predicate AwaitsStart(row: Recipient, c: CampaignId) {
    row.campaign == c && row.standing.status in {Pending, Queued}
  }

  /** The recipients a start reads, in order, below `n`. */
  function AwaitingStart(recipients: seq<Recipient>, c: CampaignId, n: nat): (ids: seq<RecipientId>)
    requires n <= |recipients|
    ensures forall r: nat :: r in ids <==> r < n && AwaitsStart(recipients[r], c)
  {
    if n == 0 then []
    else AwaitingStart(recipients, c, n - 1) + if AwaitsStart(recipients[n - 1], c) then [n - 1] else []
  }

  /** A start queues or skips what it has read, whatever has happened to those rows since. */
  function Launched(recipients: seq<Recipient>, ids: seq<RecipientId>, optedIn: set<RecipientId>)
    : (after: seq<Recipient>)
    ensures |after| == |recipients|
    decreases |ids|
  {
    if ids == [] then recipients
    else
      var r := ids[0];
      var status := if r in optedIn then Queued else Skipped;
      Launched(if r < |recipients| then recipients[r := SetStatus(recipients[r], status)] else recipients,
               ids[1..], optedIn)
  }

  /** The row after Meta's answer has been dealt with; only a rate limit gives the claim back. */
  function Answered(row: Recipient, answer: Answer): Recipient {
    match answer
    case Accepted(wamid) => SetStatus(row, Sent).(wamid := Some(wamid))
    case TooManyRequests => row.(attempted := false)
    case _ => SetStatus(row, Failed)
  }

  function Exhausted(row: Recipient): Recipient {
    if row.standing.status == Queued && row.wamid.None? then SetStatus(row, Failed) else row
  }

  // ---------------------------------------------------------------- jobs

  /** Where a send job stands: before its first read, past it, past its claim, past Meta's answer. */
  datatype Phase = Waiting | Unwilling | Willing | Claimed | Told(answer: Answer)

  datatype Job = Job(recipient: RecipientId, campaign: CampaignId, phase: Phase)

  datatype Launch = Launch(campaign: CampaignId, ids: seq<RecipientId>)

  datatype Call = Call(recipient: RecipientId, answer: Answer)

  /** What a callback or a reply has decided to write, on the recipient as it was read. */
  datatype Note = Marked(recipient: RecipientId, word: Word, at: Time) | Replying(recipient: RecipientId)

  datatype World = World(
    campaigns: map<CampaignId, CampaignStatus>, recipients: seq<Recipient>, jobs: map<JobId, Job>,
    launches: map<nat, Launch>, notes: map<nat, Note>, calls: seq<Call>)

  datatype Action =
    | DoAddRecipient(c: CampaignId)
    | DoStart(l: nat, c: CampaignId)
    | DoLaunch(l: nat, optedIn: set<RecipientId>)
    | DoPause(c: CampaignId)
    | DoCancel(c: CampaignId)
    | DoCompleteCampaign(c: CampaignId)
    | DoEnqueue(j: JobId, r: RecipientId, c: CampaignId)
    | DoRead(j: JobId, consents: bool)
    | DoSkip(j: JobId)
    | DoClaim(j: JobId)
    | DoCall(j: JobId, answer: Answer)
    | DoAnswer(j: JobId, stored: bool, completed: bool)
    | DoCrash(j: JobId)
    | DoRequeue(j: JobId)
    | DoExhausted(r: RecipientId, c: CampaignId)
    | DoReadCallback(n: nat, r: RecipientId, wamid: Wamid, cb: Callback)
    | DoReadReply(n: nat, r: RecipientId)
    | DoWriteNote(n: nat)

  predicate AtPhase(w: World, j: JobId) {
    j in w.jobs && w.jobs[j].recipient < |w.recipients|
  }

  function Goto(w: World, j: JobId, phase: Phase): World
    requires j in w.jobs
  {
    w.(jobs := w.jobs[j := w.jobs[j].(phase := phase)])
  }

  function SetRow(w: World, r: RecipientId, row: Recipient): World
    requires r < |w.recipients|
  {
    w.(recipients := w.recipients[r := row])
  }

  function SetCampaign(w: World, c: CampaignId, from: set<CampaignStatus>, status: CampaignStatus): World {
    if c in w.campaigns && w.campaigns[c] in from then w.(campaigns := w.campaigns[c := status]) else w
  }

  /** One step. An action that is not possible leaves the world as it is. */
  function Step(w: World, a: Action): World {
    match a
    case DoAddRecipient(c) => w.(recipients := w.recipients + [Recipient(c, Standing(Pending, None), None, false)])
    case DoStart(l, c) =>
      if c !in w.campaigns || w.campaigns[c] !in {Draft, Ready, Paused} || l in w.launches
         || AwaitingStart(w.recipients, c, |w.recipients|) == [] then w
      else w.(launches := w.launches[l := Launch(c, AwaitingStart(w.recipients, c, |w.recipients|))])
    case DoLaunch(l, optedIn) =>
      if l !in w.launches then w
      else
        w.(campaigns := w.campaigns[w.launches[l].campaign := Running], launches := w.launches - {l},
           recipients := Launched(w.recipients, w.launches[l].ids, optedIn))
    case DoPause(c) => SetCampaign(w, c, {Running}, Paused)
    case DoCancel(c) => SetCampaign(w, c, {Draft, Ready, Running, Paused}, Cancelled)
    case DoCompleteCampaign(c) => SetCampaign(w, c, {Running}, Completed)
    case DoEnqueue(j, r, c) => if j in w.jobs then w else w.(jobs := w.jobs[j := Job(r, c, Waiting)])
    case DoRead(j, consents) =>
      if !AtPhase(w, j) || !w.jobs[j].phase.Waiting? then w
      else
        var job := w.jobs[j];
        var row := w.recipients[job.recipient];
        if row.campaign != job.campaign || job.campaign !in w.campaigns || !MaySend(row, w.campaigns[job.campaign])
        then w.(jobs := w.jobs - {j})
        else Goto(w, j, if consents then Willing else Unwilling)
    case DoSkip(j) =>
      if !AtPhase(w, j) || !w.jobs[j].phase.Unwilling? then w
      else
        var r := w.jobs[j].recipient;
        SetRow(w, r, SetStatus(w.recipients[r], Skipped)).(jobs := w.jobs - {j})
    case DoClaim(j) =>
      if !AtPhase(w, j) || !w.jobs[j].phase.Willing? then w
      else
        var r := w.jobs[j].recipient;
        if Claimable(w.recipients[r]) then Goto(SetRow(w, r, w.recipients[r].(attempted := true)), j, Claimed)
        else w.(jobs := w.jobs - {j})
    case DoCall(j, answer) =>
      if !AtPhase(w, j) || !w.jobs[j].phase.Claimed? then w
      else Goto(w, j, Told(answer)).(calls := w.calls + [Call(w.jobs[j].recipient, answer)])
    case DoAnswer(j, stored, completed) =>
      if !AtPhase(w, j) || !w.jobs[j].phase.Told? then w
      else
        var r, answer := w.jobs[j].recipient, w.jobs[j].phase.answer;
        if answer.Accepted? && !stored then Goto(w, j, Told(OtherFailure))
        else
          var after := SetRow(w, r, Answered(w.recipients[r], answer));
          if answer.Accepted? && !completed then Goto(after, j, Told(OtherFailure))
          else if answer.TooManyRequests? then Goto(after, j, Waiting)
          else after.(jobs := w.jobs - {j})
    case DoCrash(j) => if j in w.jobs then w.(jobs := w.jobs - {j}) else w
    case DoRequeue(j) => if j in w.jobs then Goto(w, j, Waiting) else w
    case DoExhausted(r, c) =>
      if r < |w.recipients| && w.recipients[r].campaign == c then SetRow(w, r, Exhausted(w.recipients[r])) else w
    case DoReadCallback(n, r, wamid, cb) =>
      if n in w.notes || r >= |w.recipients| || w.recipients[r].wamid != Some(wamid)
         || Ignores(w.recipients[r].standing, cb) then w
      else w.(notes := w.notes[n := Marked(r, cb.word, cb.at)])
    case DoReadReply(n, r) =>
      if n in w.notes || r >= |w.recipients| || !IsReached(w.recipients[r].standing.status) then w
      else w.(notes := w.notes[n := Replying(r)])
    case DoWriteNote(n) =>
      if n !in w.notes || w.notes[n].recipient >= |w.recipients| then w
      else
        var r := w.notes[n].recipient;
        SetRow(w, r, Noted(w.recipients[r], w.notes[n])).(notes := w.notes - {n})
  }

  /** The write does not look at the row again. */
  function Noted(row: Recipient, note: Note): Recipient {
    match note
    case Marked(_, word, at) => row.(standing := Standing(Target(word), Some(at)))
    case Replying(_) => SetStatus(row, Replied)
  }

  function Run(w: World, actions: seq<Action>): World
    decreases |actions|
  {
    if actions == [] then w else Run(Step(w, actions[0]), actions[1..])
  }

  // ---------------------------------------------------------------- the invariant

  /** The job is past its claim, so that the claim is in its hands. */
  predicate Holding(w: World, j: JobId) {
    j in w.jobs && (w.jobs[j].phase.Claimed? || w.jobs[j].phase.Told?)
  }

  predicate Effective(w: World, i: nat, r: RecipientId) {
    i < |w.calls| && w.calls[i].recipient == r && !w.calls[i].answer.TooManyRequests?
  }

  /** One holder for each claimed recipient. */
  ghost predicate ClaimsHeld(w: World) {
    && (forall j: JobId :: Holding(w, j) ==>
          w.jobs[j].recipient < |w.recipients| && w.recipients[w.jobs[j].recipient].attempted)
    && (forall j: JobId, k: JobId ::
          Holding(w, j) && Holding(w, k) && w.jobs[j].recipient == w.jobs[k].recipient ==> j == k)
  }

  /** Whoever has been called with effect stays claimed, and no job on it will call or give back. */
  ghost predicate CalledStaysClaimed(w: World) {
    && (forall i: nat, r: nat :: Effective(w, i, r) ==> r < |w.recipients| && w.recipients[r].attempted)
    && (forall i: nat, j: JobId :: Holding(w, j) && Effective(w, i, w.jobs[j].recipient) ==>
          w.jobs[j].phase.Told? && !w.jobs[j].phase.answer.TooManyRequests?)
  }

  ghost predicate CalledOnce(w: World) {
    forall i: nat, k: nat, r: nat :: Effective(w, i, r) && Effective(w, k, r) ==> i == k
  }

  /** Message identifiers come from accepted calls to that recipient. */
  ghost predicate IdentifiersAnswered(w: World) {
    && (forall r: nat :: r < |w.recipients| && w.recipients[r].wamid.Some? ==>
          Call(r, Accepted(w.recipients[r].wamid.value)) in w.calls)
    && (forall j: JobId :: j in w.jobs && w.jobs[j].phase.Told? && w.jobs[j].phase.answer.Accepted? ==>
          Call(w.jobs[j].recipient, w.jobs[j].phase.answer) in w.calls)
  }

  ghost predicate Safe(w: World) {
    ClaimsHeld(w) && CalledStaysClaimed(w) && CalledOnce(w) && IdentifiersAnswered(w)
  }

  /** A start writes QUEUED to those of its recipients who have opted in, SKIPPED to its others, and
      nothing else. */
  lemma {:induction false} LaunchedRow(recipients: seq<Recipient>, ids: seq<RecipientId>,
        optedIn: set<RecipientId>, r: RecipientId)
    requires r < |recipients|
    ensures Launched(recipients, ids, optedIn)[r]
         == if r in ids then SetStatus(recipients[r], if r in optedIn then Queued else Skipped) else recipients[r]
    decreases |ids|
  {
    if ids != [] {
      var s := ids[0];
      var status := if s in optedIn then Queued else Skipped;
      var next := if s < |recipients| then recipients[s := SetStatus(recipients[s], status)] else recipients;
      assert ids == [s] + ids[1..];
      LaunchedRow(next, ids[1..], optedIn, r);
    }
  }

  /** A step that touches no claim, no identifier and no holder. */
  ghost predicate Harmless(w: World, after: World) {
    && after.calls == w.calls && |after.recipients| >= |w.recipients|
    && (forall r: nat :: r < |w.recipients| ==>
          && after.recipients[r].attempted == w.recipients[r].attempted
          && after.recipients[r].wamid == w.recipients[r].wamid)
    && (forall r: nat :: |w.recipients| <= r < |after.recipients| ==> after.recipients[r].wamid.None?)
    && (forall j: JobId :: Holding(after, j) ==> Holding(w, j) && after.jobs[j] == w.jobs[j])
  }

  lemma HarmlessKeepsSafe(w: World, after: World)
    requires Safe(w) && Harmless(w, after)
    ensures Safe(after)
  {
    forall i: nat, r: nat | Effective(after, i, r) ensures Effective(w, i, r) {
    }
  }

  lemma LaunchIsHarmless(w: World, a: Action)
    requires a.DoLaunch?
    ensures Harmless(w, Step(w, a))
  {
    if a.l in w.launches {
      forall r: nat | r < |w.recipients|
        ensures Step(w, a).recipients[r].attempted == w.recipients[r].attempted
             && Step(w, a).recipients[r].wamid == w.recipients[r].wamid
      {
        LaunchedRow(w.recipients, w.launches[a.l].ids, a.optedIn, r);
      }
    }
  }

  lemma NoteStepsAreHarmless(w: World, a: Action)
    requires a.DoReadCallback? || a.DoReadReply? || a.DoWriteNote?
    ensures Harmless(w, Step(w, a))
  {
    hide Ignores;
  }

  lemma CampaignStepsAreHarmless(w: World, a: Action)
    requires a.DoAddRecipient? || a.DoStart? || a.DoPause? || a.DoCancel? || a.DoCompleteCampaign? || a.DoExhausted?
    ensures Harmless(w, Step(w, a))
  {
  }

  lemma EarlyJobStepsAreHarmless(w: World, a: Action)
    requires a.DoEnqueue? || a.DoRead? || a.DoSkip? || a.DoCrash? || a.DoRequeue?
    ensures Harmless(w, Step(w, a))
  {
  }

  /** The job `j` takes the claim of a recipient that nobody has claimed. */
  ghost predicate Takes(w: World, after: World, j: JobId, r: RecipientId) {
    && r < |w.recipients| && !w.recipients[r].attempted && after.calls == w.calls
    && after.recipients == w.recipients[r := w.recipients[r].(attempted := true)]
    && j in after.jobs && after.jobs[j].recipient == r && after.jobs[j].phase == Claimed
    && (forall k: JobId :: Holding(after, k) && k != j ==> Holding(w, k) && after.jobs[k] == w.jobs[k])
  }

  lemma TakingKeepsClaims(w: World, after: World, j: JobId, r: RecipientId)
    requires ClaimsHeld(w) && CalledStaysClaimed(w) && Takes(w, after, j, r)
    ensures ClaimsHeld(after) && CalledStaysClaimed(after)
  {
    forall i: nat, s: nat | Effective(after, i, s) ensures Effective(w, i, s) && s != r {
      assert Effective(w, i, s);
    }
  }

  lemma TakingKeepsIdentifiers(w: World, after: World, j: JobId, r: RecipientId)
    requires CalledOnce(w) && IdentifiersAnswered(w) && Takes(w, after, j, r)
    ensures CalledOnce(after) && IdentifiersAnswered(after)
  {
    forall i: nat, s: nat | Effective(after, i, s) ensures Effective(w, i, s) {
    }
    forall k: JobId | k in after.jobs && after.jobs[k].phase.Told? && after.jobs[k].phase.answer.Accepted?
      ensures Call(after.jobs[k].recipient, after.jobs[k].phase.answer) in after.calls
    {
      assert Holding(after, k);
    }
  }

  lemma ClaimKeepsSafe(w: World, j: JobId)
    requires Safe(w)
    ensures Safe(Step(w, DoClaim(j)))
  {
    hide ClaimsHeld;
    hide CalledStaysClaimed;
    hide CalledOnce;
    hide IdentifiersAnswered;
    var after := Step(w, DoClaim(j));
    if AtPhase(w, j) && w.jobs[j].phase.Willing? && Claimable(w.recipients[w.jobs[j].recipient]) {
      var r := w.jobs[j].recipient;
      assert Takes(w, after, j, r);
      TakingKeepsClaims(w, after, j, r);
      TakingKeepsIdentifiers(w, after, j, r);
    } else {
      HarmlessKeepsSafe(w, after);
    }
  }

  lemma CallKeepsSafe(w: World, j: JobId, answer: Answer)
    requires Safe(w)
    ensures Safe(Step(w, DoCall(j, answer)))
  {
    var after := Step(w, DoCall(j, answer));
    if AtPhase(w, j) && w.jobs[j].phase.Claimed? {
      assert Holding(w, j);
      var r := w.jobs[j].recipient;
      forall i: nat, s: nat | Effective(after, i, s)
        ensures Effective(w, i, s) || (i == |w.calls| && s == r && !answer.TooManyRequests?)
      {
      }
      forall k: JobId | Holding(after, k) ensures Holding(w, k) && (k != j ==> after.jobs[k] == w.jobs[k]) {
      }
      assert IdentifiersAnswered(after) by {
        hide CalledStaysClaimed;
        hide CalledOnce;
        assert Call(r, answer) in after.calls;
        assert forall c :: c in w.calls ==> c in after.calls;
      }
    }
  }

  /** The answer could not be stored, or the campaign not be completed after it: the job goes on to
      record a failure. */
  lemma LostAnswerKeepsSafe(w: World, after: World, j: JobId)
    requires Safe(w) && AtPhase(w, j) && w.jobs[j].phase.Told? && w.jobs[j].phase.answer.Accepted?
    requires var r := w.jobs[j].recipient;
             || after == Goto(w, j, Told(OtherFailure))
             || after == Goto(SetRow(w, r, Answered(w.recipients[r], w.jobs[j].phase.answer)), j, Told(OtherFailure))
    ensures Safe(after)
  {
    assert Holding(w, j);
    forall i: nat, r: nat | Effective(after, i, r) ensures Effective(w, i, r) {
    }
    forall k: JobId | Holding(after, k) ensures Holding(w, k) && (k != j ==> after.jobs[k] == w.jobs[k]) {
    }
  }

  /** The holder `j` settles its recipient and lets go; only a rate limit gives the claim back. */
  ghost predicate Settles(w: World, after: World, j: JobId, r: RecipientId, answer: Answer) {
    && AtPhase(w, j) && w.jobs[j] == Job(r, w.jobs[j].campaign, Told(answer))
    && after.calls == w.calls && after.recipients == w.recipients[r := Answered(w.recipients[r], answer)]
    && (forall k: JobId :: Holding(after, k) ==> k != j && Holding(w, k) && after.jobs[k] == w.jobs[k])
  }

  lemma SettlingKeepsClaims(w: World, after: World, j: JobId, r: RecipientId, answer: Answer)
    requires ClaimsHeld(w) && CalledStaysClaimed(w) && CalledOnce(w) && Settles(w, after, j, r, answer)
    ensures ClaimsHeld(after) && CalledStaysClaimed(after) && CalledOnce(after)
  {
    assert Holding(w, j);
    forall i: nat, s: nat | Effective(after, i, s) ensures Effective(w, i, s) {
    }
    assert answer.TooManyRequests? ==> forall i: nat :: !Effective(w, i, r);
  }

  lemma SettlingKeepsIdentifiers(w: World, after: World, j: JobId, r: RecipientId, answer: Answer)
    requires IdentifiersAnswered(w) && Settles(w, after, j, r, answer)
    requires forall k: JobId :: k in after.jobs && after.jobs[k].phase.Told? ==>
               k in w.jobs && after.jobs[k] == w.jobs[k]
    ensures IdentifiersAnswered(after)
  {
  }

  lemma AnswerKeepsSafe(w: World, j: JobId, stored: bool, completed: bool)
    requires Safe(w)
    ensures Safe(Step(w, DoAnswer(j, stored, completed)))
  {
    var after := Step(w, DoAnswer(j, stored, completed));
    if AtPhase(w, j) && w.jobs[j].phase.Told? {
      var r, answer := w.jobs[j].recipient, w.jobs[j].phase.answer;
      if answer.Accepted? && !(stored && completed) {
        LostAnswerKeepsSafe(w, after, j);
      } else {
        hide ClaimsHeld;
        hide CalledStaysClaimed;
        hide CalledOnce;
        hide IdentifiersAnswered;
        hide Answered;
        assert Settles(w, after, j, r, answer);
        SettlingKeepsClaims(w, after, j, r, answer);
        SettlingKeepsIdentifiers(w, after, j, r, answer);
      }
    }
  }

  lemma StepKeepsSafe(w: World, a: Action)
    requires Safe(w)
    ensures Safe(Step(w, a))
  {
    hide Safe;
    hide Step;
    match a
    case DoClaim(j) => ClaimKeepsSafe(w, j);
    case DoCall(j, answer) => CallKeepsSafe(w, j, answer);
    case DoAnswer(j, stored, completed) => AnswerKeepsSafe(w, j, stored, completed);
    case _ =>
      if a.DoEnqueue? || a.DoRead? || a.DoSkip? || a.DoCrash? || a.DoRequeue? {
        EarlyJobStepsAreHarmless(w, a);
      } else if a.DoLaunch? {
        LaunchIsHarmless(w, a);
      } else if a.DoReadCallback? || a.DoReadReply? || a.DoWriteNote? {
        NoteStepsAreHarmless(w, a);
      } else {
        CampaignStepsAreHarmless(w, a);
      }
      HarmlessKeepsSafe(w, Step(w, a));
  }

  ghost predicate Initial(w: World) {
    && w.recipients == [] && w.jobs == map[] && w.launches == map[] && w.notes == map[] && w.calls == []
  }

  lemma {:induction false} RunKeepsSafe(w: World, actions: seq<Action>)
    requires Safe(w)
    ensures Safe(Run(w, actions))
    decreases |actions|
  {
    hide Safe;
    hide Step;
    if actions != [] {
      StepKeepsSafe(w, actions[0]);
      RunKeepsSafe(Step(w, actions[0]), actions[1..]);
    }
  }

  /** Over every interleaving of duplicate jobs, pauses, resumes, retries and crashes, a recipient gets
      at most one call that was not answered 429. */
  lemma AtMostOneEffectiveCall(w: World, actions: seq<Action>, i: nat, k: nat, r: RecipientId)
    requires Initial(w) && Effective(Run(w, actions), i, r) && Effective(Run(w, actions), k, r)
    ensures i == k
  {
    RunKeepsSafe(w, actions);
  }

  /** A recipient's message identifier is Meta's answer to a call to that recipient. */
  lemma IdentifiersComeFromCalls(w: World, actions: seq<Action>, r: RecipientId)
    requires Initial(w) && r < |Run(w, actions).recipients| && Run(w, actions).recipients[r].wamid.Some?
    ensures Call(r, Accepted(Run(w, actions).recipients[r].wamid.value)) in Run(w, actions).calls
  {
    RunKeepsSafe(w, actions);
  }

  // ---------------------------------------------------------------- when a rank falls

  /** An accepted answer that is about to be stored for `r`. */
  predicate StoresSent(w: World, a: Action, r: RecipientId) {
    a.DoAnswer? && a.stored && AtPhase(w, a.j) && w.jobs[a.j].recipient == r
    && w.jobs[a.j].phase.Told? && w.jobs[a.j].phase.answer.Accepted?
  }

  /** The write of a start that has read `r` as pending or queued, and as opted in. */
  predicate QueuesAgain(w: World, a: Action, r: RecipientId) {
    a.DoLaunch? && a.l in w.launches && r in w.launches[a.l].ids && r in a.optedIn
  }

  /** The write of a callback whose status is no longer further on than the recipient's. */
  predicate WritesBack(w: World, a: Action, r: RecipientId)
    requires r < |w.recipients|
  {
    && a.DoWriteNote? && a.n in w.notes && w.notes[a.n].Marked? && w.notes[a.n].recipient == r
    && Rank(Target(w.notes[a.n].word)) < Rank(w.recipients[r].standing.status)
  }

  /** Ranks do fall. A step lowers a recipient's rank exactly if a start queues it that had read it
      before it came further, or an accepted answer is stored after something else has settled it, or
      a callback is written that the program's comparison of ranks, made again now, would ignore. */
  lemma RankFallsIff(w: World, a: Action, r: RecipientId)
    requires r < |w.recipients|
    ensures r < |Step(w, a).recipients|
    ensures Rank(Step(w, a).recipients[r].standing.status) < Rank(w.recipients[r].standing.status)
       <==> || (QueuesAgain(w, a, r) && w.recipients[r].standing.status !in {Pending, Queued})
            || (StoresSent(w, a, r) && w.recipients[r].standing.status !in {Pending, Queued, Sent})
            || WritesBack(w, a, r)
  {
    hide Step;
    if a.DoLaunch? {
      LaunchRank(w, a, r);
    } else if a.DoAnswer? {
      AnswerRank(w, a, r);
    } else if a.DoWriteNote? {
      NoteRank(w, a, r);
    } else {
      OthersKeepRank(w, a, r);
    }
  }

  lemma LaunchRank(w: World, a: Action, r: RecipientId)
    requires a.DoLaunch? && r < |w.recipients|
    ensures r < |Step(w, a).recipients|
    ensures Rank(Step(w, a).recipients[r].standing.status) < Rank(w.recipients[r].standing.status)
       <==> QueuesAgain(w, a, r) && w.recipients[r].standing.status !in {Pending, Queued}
  {
    if a.l in w.launches {
      LaunchedRow(w.recipients, w.launches[a.l].ids, a.optedIn, r);
    }
  }

  lemma AnswerRank(w: World, a: Action, r: RecipientId)
    requires a.DoAnswer? && r < |w.recipients|
    ensures r < |Step(w, a).recipients|
    ensures Rank(Step(w, a).recipients[r].standing.status) < Rank(w.recipients[r].standing.status)
       <==> StoresSent(w, a, r) && w.recipients[r].standing.status !in {Pending, Queued, Sent}
  {
  }

  lemma NoteRank(w: World, a: Action, r: RecipientId)
    requires a.DoWriteNote? && r < |w.recipients|
    ensures r < |Step(w, a).recipients|
    ensures Rank(Step(w, a).recipients[r].standing.status) < Rank(w.recipients[r].standing.status)
       <==> WritesBack(w, a, r)
  {
  }

  lemma OthersKeepRank(w: World, a: Action, r: RecipientId)
    requires !a.DoLaunch? && !a.DoAnswer? && !a.DoWriteNote? && r < |w.recipients|
    ensures r < |Step(w, a).recipients|
    ensures Rank(Step(w, a).recipients[r].standing.status) >= Rank(w.recipients[r].standing.status)
  {
    hide Ignores;
    hide AwaitingStart;
  }

  /** What `Mark` does in one go, a callback's read and write do with nothing in between. */
  lemma ReadAndWriteAreMark(w: World, n: nat, r: RecipientId, wamid: Wamid, cb: Callback)
    requires n !in w.notes && r < |w.recipients| && w.recipients[r].wamid == Some(wamid)
    ensures Step(Step(w, DoReadCallback(n, r, wamid, cb)), DoWriteNote(n)).recipients
         == w.recipients[r := w.recipients[r].(standing := Mark(w.recipients[r].standing, cb))]
  {
    hide Ignores;
    var read := Step(w, DoReadCallback(n, r, wamid, cb));
    assert Ignores(w.recipients[r].standing, cb) ==> read == w;
    assert !Ignores(w.recipients[r].standing, cb) ==> read == w.(notes := w.notes[n := Marked(r, cb.word, cb.at)]);
  }

  lemma ReadAndWriteAreReply(w: World, n: nat, r: RecipientId)
    requires n !in w.notes && r < |w.recipients|
    ensures Step(Step(w, DoReadReply(n, r)), DoWriteNote(n)).recipients
         == w.recipients[r := w.recipients[r].(standing := Reply(w.recipients[r].standing))]
  {
    hide IsReached;
    var read := Step(w, DoReadReply(n, r));
    assert !IsReached(w.recipients[r].standing.status) ==> read == w;
    assert IsReached(w.recipients[r].standing.status) ==> read == w.(notes := w.notes[n := Replying(r)]);
  }

  /** As long as nobody else writes a recipient between reading and writing it, callbacks and replies
      never lower its rank. */
  lemma CallbacksAndRepliesNeverLowerARank(w: World, before: World, n: nat, r: RecipientId, a: Action)
    requires (a.DoReadCallback? || a.DoReadReply?) && a.n == n && a.r == r
    requires n !in before.notes && n in Step(before, a).notes
    requires n in w.notes && w.notes[n] == Step(before, a).notes[n]
    requires r < |w.recipients| && r < |before.recipients| && w.recipients[r] == before.recipients[r]
    ensures r < |Step(w, DoWriteNote(n)).recipients|
    ensures Rank(Step(w, DoWriteNote(n)).recipients[r].standing.status) >= Rank(w.recipients[r].standing.status)
  {
  }
}
