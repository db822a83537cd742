/** The recipients of campaigns as the service updates them in place. */
module CampaignStores {
  import opened Options
  import opened CampaignCallbacks
  import opened Campaigns

  /** How a send job ends: without a call, after a call, or thrown back to the queue after a 429. */
  datatype JobEnd = NoCall | Finished | ThrownBack

  class CampaignStore {
    var recipients: seq<Recipient>

    constructor ()
      ensures recipients == []
    {
      recipients := [];
    }

    /** The write of a start: those of `ids` who have opted in are queued and its others skipped, whatever
        has happened to them since they were read. Claims, identifiers and timestamps stay, so that
        nobody who has been claimed can be claimed again. */
    method LaunchRecipients(ids: seq<RecipientId>, optedIn: set<RecipientId>)
      modifies this
      ensures recipients == Launched(old(recipients), ids, optedIn)
      ensures |recipients| == |old(recipients)|
      ensures forall r: nat :: r < |recipients| ==>
                recipients[r].standing.status ==
                  if r !in ids then old(recipients)[r].standing.status else if r in optedIn then Queued else Skipped
      ensures forall r: nat :: r < |recipients| ==>
                && recipients[r].campaign == old(recipients)[r].campaign
                && recipients[r].wamid == old(recipients)[r].wamid
                && recipients[r].attempted == old(recipients)[r].attempted
                && recipients[r].standing.metaTimestamp == old(recipients)[r].standing.metaTimestamp
      ensures forall r: nat :: r < |recipients| && Claimable(recipients[r]) ==> !old(recipients)[r].attempted
    {
      var i := 0;
      assert ids[0..] == ids;
      while i < |ids|
        invariant i <= |ids|
        invariant Launched(recipients, ids[i..], optedIn) == Launched(old(recipients), ids, optedIn)
      {
        assert ids[i..][1..] == ids[i + 1..];
        if ids[i] < |recipients| {
          var status := if ids[i] in optedIn then Queued else Skipped;
          recipients := recipients[ids[i] := SetStatus(recipients[ids[i]], status)];
        }
        i := i + 1;
      }
      forall r: nat | r < |recipients|
        ensures recipients[r] == if r !in ids then old(recipients)[r]
                                 else SetStatus(old(recipients)[r], if r in optedIn then Queued else Skipped)
      {
        LaunchedRow(old(recipients), ids, optedIn, r);
      }
    }

    method TakeClaim(r: RecipientId) returns (claimed: bool)
      requires r < |recipients|
      modifies this
      ensures claimed <==> Claimable(old(recipients)[r])
      ensures claimed <==>
                && old(recipients)[r].standing.status == Queued && old(recipients)[r].wamid == None
                && !old(recipients)[r].attempted
      ensures recipients
              == if claimed then old(recipients)[r := old(recipients)[r].(attempted := true)] else old(recipients)
    {
      claimed := recipients[r].standing.status == Queued && recipients[r].wamid.None? && !recipients[r].attempted;
      if claimed {
        recipients := recipients[r := recipients[r].(attempted := true)];
      }
    }

    /** One send job from its read to its end, nobody else writing meanwhile. Meta is called exactly
        for a willing, queued and unclaimed recipient of a running campaign, and an unwilling one is
        skipped; only a 429 leaves the recipient as it was, and every other answer leaves it claimed.
        An accepted message whose storing or whose check for the campaign's completion throws ends
        FAILED. */
    method ProcessSendJob(r: RecipientId, c: CampaignId, campaign: CampaignStatus, consents: bool,
                          answer: Answer, stored: bool, completed: bool)
      returns (end: JobEnd)
      modifies this
      ensures |recipients| == |old(recipients)|
      ensures forall s: nat :: s < |recipients| && s != r ==> recipients[s] == old(recipients)[s]
      ensures end != NoCall <==>
                r < |recipients| && old(recipients)[r].campaign == c && campaign == Running
                      && consents && Claimable(old(recipients)[r])
      ensures end == ThrownBack ==> answer.TooManyRequests? && recipients == old(recipients)
      ensures end == Finished ==>
                && recipients[r].attempted
                && recipients[r].wamid == (if answer.Accepted? && stored then Some(answer.wamid) else None)
                && recipients[r].standing.status == (if answer.Accepted? && stored && completed then Sent else Failed)
                && recipients[r].standing.metaTimestamp == old(recipients)[r].standing.metaTimestamp
                && recipients[r].campaign == c && answer != TooManyRequests
      ensures end == NoCall ==>
                if && r < |old(recipients)| && old(recipients)[r].campaign == c && campaign == Running && !consents
                   && old(recipients)[r].standing.status == Queued && old(recipients)[r].wamid == None
                then recipients == old(recipients)[r := old(recipients)[r].(standing :=
                       Standing(Skipped, old(recipients)[r].standing.metaTimestamp))]
                else recipients == old(recipients)
    {
      if r >= |recipients| || recipients[r].campaign != c || !MaySend(recipients[r], campaign) { return NoCall; }
      if !consents {
        recipients := recipients[r := SetStatus(recipients[r], Skipped)];
        return NoCall;
      }
      var claimed := TakeClaim(r);
      if !claimed { return NoCall; }
      var told := if answer.Accepted? && !stored then OtherFailure else answer;
      recipients := recipients[r := Answered(recipients[r], told)];
      if told.TooManyRequests? {
        assert recipients[r] == old(recipients)[r];
        return ThrownBack;
      }
      if told.Accepted? && !completed {
        recipients := recipients[r := Answered(recipients[r], OtherFailure)];
      }
      end := Finished;
    }

    /** A status callback for the recipient found by its message identifier, nobody else writing it
        meanwhile. */
    method MarkRecipientStatus(r: RecipientId, text: string, at: Time)
      requires r < |recipients|
      modifies this
      ensures |recipients| == |old(recipients)|
      ensures forall s: nat :: s < |recipients| && s != r ==> recipients[s] == old(recipients)[s]
      ensures recipients[r] == old(recipients)[r].(standing :=
                match Parse(text)
                case Some(word) => Mark(old(recipients)[r].standing, Callback(word, at))
                case None => old(recipients)[r].standing)
      ensures text !in {"sent", "delivered", "read", "failed"} ==> recipients == old(recipients)
    {
      var s := recipients[r].standing;
      var word := Parse(text);
      ParsedIffSpelled(text, SentWord);
      if word.None? || IsTerminal(s.status) || Rank(Target(word.value)) < Rank(s.status)
         || (s.metaTimestamp.Some? && at < s.metaTimestamp.value)
      {
        return;
      }
      recipients := recipients[r := recipients[r].(standing := Standing(Target(word.value), Some(at)))];
    }

    /** The last retry of a job has failed: no job that still has to read or to claim its recipient may
        send to it. A recipient that still waited for its message is failed, and any other is left as
        it is. */
    method MarkRetryExhausted(r: RecipientId, c: CampaignId)
      modifies this
      ensures |recipients| == |old(recipients)|
      ensures forall s: nat :: s < |recipients| && s != r ==> recipients[s] == old(recipients)[s]
      ensures r < |recipients| && (recipients[r].campaign != c || !MaySend(old(recipients)[r], Running)) ==>
                recipients == old(recipients)
      ensures r < |recipients| && recipients[r].campaign == c ==>
                && !MaySend(recipients[r], Running)
                && (MaySend(old(recipients)[r], Running) ==>
                      && recipients[r].standing.status == Failed && recipients[r].wamid.None?
                      && recipients[r].attempted == old(recipients)[r].attempted
                      && recipients[r].standing.metaTimestamp == old(recipients)[r].standing.metaTimestamp)
      ensures r < |recipients| ==> recipients[r].campaign == old(recipients)[r].campaign
      ensures r < |recipients| && recipients[r].campaign == c ==> recipients[r] == Exhausted(old(recipients)[r])
    {
      if r < |recipients| && recipients[r].campaign == c && recipients[r].standing.status == Queued
            && recipients[r].wamid.None? {
        recipients := recipients[r := SetStatus(recipients[r], Failed)];
      }
    }
  }
}
