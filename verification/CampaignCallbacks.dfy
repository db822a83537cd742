/** The delivery status of one campaign recipient under callbacks that arrive late, twice and out of
    order. */
module CampaignCallbacks {
  import opened Options

  type Time = int

  datatype RecipientStatus = Pending | Queued | Sent | Delivered | Read | Replied | Failed | Skipped

  function Rank(s: RecipientStatus): nat {
    match s
    case Pending => 0
    case Queued => 0
    case Sent => 1
    case Delivered => 2
    case Read => 3
    case _ => 4
  }

  predicate IsTerminal(s: RecipientStatus) {
    s in {Replied, Failed, Skipped}
  }

  /** The part of a recipient that callbacks change. */
  datatype Standing = Standing(status: RecipientStatus, metaTimestamp: Option<Time>)

  /** The statuses a callback can report; any other word is ignored. */
  datatype Word = SentWord | DeliveredWord | ReadWord | FailedWord

  datatype Callback = Callback(word: Word, at: Time)

  function Target(word: Word): RecipientStatus {
    match word
    case SentWord => Sent
    case DeliveredWord => Delivered
    case ReadWord => Read
    case FailedWord => Failed
  }

  function Parse(text: string): Option<Word> {
    if text == "sent" then Some(SentWord)
    else if text == "delivered" then Some(DeliveredWord)
    else if text == "read" then Some(ReadWord)
    else if text == "failed" then Some(FailedWord)
    else None
  }

  predicate Ignores(s: Standing, cb: Callback) {
    || IsTerminal(s.status) || Rank(Target(cb.word)) < Rank(s.status)
    || (s.metaTimestamp.Some? && cb.at < s.metaTimestamp.value)
  }

  function Mark(s: Standing, cb: Callback): Standing {
    if Ignores(s, cb) then s else Standing(Target(cb.word), Some(cb.at))
  }

  function MarkAll(s: Standing, cbs: seq<Callback>): Standing
    decreases |cbs|
  {
    if cbs == [] then s else MarkAll(Mark(s, cbs[0]), cbs[1..])
  }

  predicate IsReached(s: RecipientStatus) {
    s in {Sent, Delivered, Read}
  }

  /** Only a recipient that has been reached can be answered. */
  function Reply(s: Standing): Standing {
    if IsReached(s.status) then s.(status := Replied) else s
  }

  // ---------------------------------------------------------------- what a callback does

  /** The words Meta uses. */
  function Spelling(word: Word): string {
    match word
    case SentWord => "sent"
    case DeliveredWord => "delivered"
    case ReadWord => "read"
    case FailedWord => "failed"
  }

  /** Exactly Meta's four words are understood, each as what it is. */
  lemma ParsedIffSpelled(text: string, word: Word)
    ensures Parse(text) == Some(word) <==> text == Spelling(word)
    ensures Parse(text) == None <==> text !in {"sent", "delivered", "read", "failed"}
  {
    assert "sent"[0] != "delivered"[0] && "delivered"[0] != "read"[0] && "read"[0] != "failed"[0];
  }

  /** The order of the statuses: waiting, sent, delivered, read, and those that are final. */
  predicate FurtherOn(a: RecipientStatus, b: RecipientStatus) {
    match b
    case Pending => a !in {Pending, Queued}
    case Queued => a !in {Pending, Queued}
    case Sent => a in {Delivered, Read, Replied, Failed, Skipped}
    case Delivered => a in {Read, Replied, Failed, Skipped}
    case Read => a in {Replied, Failed, Skipped}
    case _ => false
  }

  /** The status that a callback reports is written, with its timestamp, exactly if the recipient's is
      not final and not further on and no later callback has been written before; else nothing is. */
  lemma MarkedIff(s: Standing, cb: Callback, reported: RecipientStatus)
    requires (cb.word, reported) in
               {(SentWord, Sent), (DeliveredWord, Delivered), (ReadWord, Read), (FailedWord, RecipientStatus.Failed)}
    ensures Mark(s, cb) ==
              if && s.status !in {Replied, Failed, Skipped} && !FurtherOn(s.status, reported)
                 && (s.metaTimestamp == None || s.metaTimestamp.value <= cb.at)
              then Standing(reported, Some(cb.at)) else s
  {
  }

  // ---------------------------------------------------------------- ranks never fall

  /** No callback and no reply lowers the rank, and none moves the timestamp back. */
  lemma {:induction false} RanksNeverFall(s: Standing, cbs: seq<Callback>)
    ensures Rank(MarkAll(s, cbs).status) >= Rank(s.status)
    ensures Rank(Reply(s).status) >= Rank(s.status)
    ensures s.metaTimestamp.Some? ==>
              MarkAll(s, cbs).metaTimestamp.Some? && MarkAll(s, cbs).metaTimestamp.value >= s.metaTimestamp.value
    ensures s.status in {Replied, Failed, Skipped} ==> MarkAll(s, cbs) == s && Reply(s) == s
    ensures s.status in {Sent, Delivered, Read} <==>
                s.status != Replied && Reply(s) == Standing(Replied, s.metaTimestamp)
    decreases |cbs|
  {
    if cbs != [] {
      RanksNeverFall(Mark(s, cbs[0]), cbs[1..]);
    }
  }

  // ---------------------------------------------------------------- confluence

  function CallbackRank(cb: Callback): nat {
    Rank(Target(cb.word))
  }

  predicate Applicable(s: Standing, cb: Callback) {
    && !IsTerminal(s.status) && CallbackRank(cb) >= Rank(s.status)
    && (s.metaTimestamp.Some? ==> cb.at >= s.metaTimestamp.value)
  }

  /** The highest rank among the callbacks that could be applied, or else the present rank. */
  function Top(s: Standing, cbs: seq<Callback>): (r: nat)
    ensures r >= Rank(s.status)
    ensures forall cb :: cb in cbs && Applicable(s, cb) ==> CallbackRank(cb) <= r
    ensures r == Rank(s.status) || exists cb :: cb in cbs && Applicable(s, cb) && CallbackRank(cb) == r
  {
    if cbs == [] then Rank(s.status)
    else
      var rest := Top(s, cbs[1..]);
      if Applicable(s, cbs[0]) && CallbackRank(cbs[0]) > rest then CallbackRank(cbs[0]) else rest
  }

  /** Some top-ranked callback is at least as late as every lower-ranked one that could be applied. */
  ghost predicate TopIsLatest(s: Standing, cbs: seq<Callback>) {
    Top(s, cbs) > Rank(s.status) ==>
      exists top :: TopAndLatest(s, cbs, top)
  }

  ghost predicate TopAndLatest(s: Standing, cbs: seq<Callback>, top: Callback) {
    && top in cbs && Applicable(s, top) && CallbackRank(top) == Top(s, cbs)
    && forall cb :: cb in cbs && Applicable(s, cb) && CallbackRank(cb) < Top(s, cbs) ==> cb.at <= top.at
  }

  ghost predicate SameElements(a: seq<Callback>, b: seq<Callback>) {
    forall cb :: cb in a <==> cb in b
  }

  /** Every order and every repetition of the callbacks ends at the top rank. */
  ghost predicate Confluent(s: Standing, cbs: seq<Callback>) {
    forall order :: SameElements(order, cbs) ==> Rank(MarkAll(s, order).status) == Top(s, cbs)
  }

  /** The top-ranked callback `top` will still be taken: the standing is at its rank, or below it with
      a timestamp that is not later. */
  ghost predicate Awaits(s: Standing, top: Callback) {
    || Rank(s.status) == CallbackRank(top)
    || (Rank(s.status) < CallbackRank(top) && (s.metaTimestamp.Some? ==> s.metaTimestamp.value <= top.at))
  }

  lemma {:induction false} TopIsTaken(s: Standing, start: Standing, order: seq<Callback>, cbs: seq<Callback>,
          top: Callback)
    requires TopAndLatest(start, cbs, top) && (forall cb :: cb in order ==> cb in cbs)
    requires Awaits(s, top) && Rank(s.status) >= Rank(start.status)
    requires start.metaTimestamp.Some? ==> s.metaTimestamp.Some? && s.metaTimestamp.value >= start.metaTimestamp.value
    requires top in order || Rank(s.status) == CallbackRank(top)
    ensures Rank(MarkAll(s, order).status) == CallbackRank(top)
    decreases |order|
  {
    if order != [] {
      var next := Mark(s, order[0]);
      assert order[0] in cbs;
      assert !Ignores(s, order[0]) ==> Applicable(start, order[0]);
      TopIsTaken(next, start, order[1..], cbs, top);
    }
  }

  lemma {:induction false} StaysBelow(s: Standing, order: seq<Callback>, rank: nat, after: Time)
    requires Rank(s.status) < rank && s.metaTimestamp.Some? && s.metaTimestamp.value >= after
    requires forall cb :: cb in order && CallbackRank(cb) >= rank ==> cb.at < after
    ensures Rank(MarkAll(s, order).status) < rank
    decreases |order|
  {
    if order != [] {
      assert order[0] in order;
      StaysBelow(Mark(s, order[0]), order[1..], rank, after);
    }
  }

  lemma {:induction false} NothingApplies(s: Standing, order: seq<Callback>, start: Standing)
    requires Rank(s.status) == Rank(start.status)
    requires start.metaTimestamp.Some? ==> s.metaTimestamp.Some? && s.metaTimestamp.value >= start.metaTimestamp.value
    requires IsTerminal(start.status) ==> IsTerminal(s.status)
    requires forall cb :: cb in order && Applicable(start, cb) ==> CallbackRank(cb) == Rank(start.status)
    ensures Rank(MarkAll(s, order).status) == Rank(start.status)
    decreases |order|
  {
    if order != [] {
      assert order[0] in order;
      NothingApplies(Mark(s, order[0]), order[1..], start);
    }
  }

  lemma LatestIsConfluent(s: Standing, cbs: seq<Callback>)
    requires TopIsLatest(s, cbs)
    ensures Confluent(s, cbs)
  {
    forall order | SameElements(order, cbs) ensures Rank(MarkAll(s, order).status) == Top(s, cbs) {
      if Top(s, cbs) > Rank(s.status) {
        var top :| TopAndLatest(s, cbs, top);
        TopIsTaken(s, s, order, cbs, top);
      } else {
        NothingApplies(s, order, s);
      }
    }
  }

  function LatestTop(s: Standing, cbs: seq<Callback>, rank: nat): (r: Option<Callback>)
    ensures r.Some? ==> r.value in cbs && Applicable(s, r.value) && CallbackRank(r.value) == rank
    ensures forall cb :: cb in cbs && Applicable(s, cb) && CallbackRank(cb) == rank ==> r.Some? && cb.at <= r.value.at
  {
    if cbs == [] then None
    else
      var rest := LatestTop(s, cbs[1..], rank);
      if Applicable(s, cbs[0]) && CallbackRank(cbs[0]) == rank && (rest.None? || rest.value.at <= cbs[0].at)
      then Some(cbs[0]) else rest
  }

  lemma ConfluentIsLatest(s: Standing, cbs: seq<Callback>)
    requires Confluent(s, cbs)
    ensures TopIsLatest(s, cbs)
  {
    var rank := Top(s, cbs);
    if rank > Rank(s.status) {
      var top := LatestTop(s, cbs, rank).value;
      if late :| late in cbs && Applicable(s, late) && CallbackRank(late) < rank && late.at > top.at {
        var order := [late] + cbs;
        assert SameElements(order, cbs);
        assert order[1..] == cbs && Mark(s, late) == Standing(Target(late.word), Some(late.at));
        assert forall cb :: cb in cbs && CallbackRank(cb) >= rank ==> Applicable(s, cb) ==> cb.at <= top.at;
        StaysBelow(Mark(s, late), cbs, rank, late.at);
        assert false;
      }
      assert TopAndLatest(s, cbs, top);
    }
  }

  /** Whatever the order and the repetitions, callbacks leave a recipient at the highest rank among
      those that could be applied, if and only if some callback of that rank is at least as late as
      every lower-ranked one. */
  lemma ConfluentIffTopIsLatest(s: Standing, cbs: seq<Callback>)
    ensures Confluent(s, cbs) <==> TopIsLatest(s, cbs)
  {
    if TopIsLatest(s, cbs) {
      LatestIsConfluent(s, cbs);
    }
    if Confluent(s, cbs) {
      ConfluentIsLatest(s, cbs);
    }
  }

  /** A higher-ranked callback never has an earlier timestamp than a lower-ranked one. */
  ghost predicate InOrder(cbs: seq<Callback>) {
    forall a, b :: a in cbs && b in cbs && CallbackRank(a) < CallbackRank(b) ==> a.at <= b.at
  }

  /** Callbacks whose timestamps agree with their ranks leave a recipient that has none yet at the
      status of the highest-ranked one, in any order and with any repetition. */
  lemma AgreeingCallbacksAreConfluent(status: RecipientStatus, cbs: seq<Callback>, order: seq<Callback>, top: Callback)
    requires !IsTerminal(status) && InOrder(cbs) && SameElements(order, cbs)
    requires top in cbs && (forall cb :: cb in cbs ==> CallbackRank(cb) <= CallbackRank(top))
    requires CallbackRank(top) > Rank(status)
    ensures MarkAll(Standing(status, None), order).status == Target(top.word)
  {
    var s := Standing(status, None);
    assert Applicable(s, top);
    assert Top(s, cbs) == CallbackRank(top);
    assert TopAndLatest(s, cbs, top);
    LatestIsConfluent(s, cbs);
    OnlyCallbackStatuses(s, order);
  }

  lemma {:induction false} OnlyCallbackStatuses(s: Standing, order: seq<Callback>)
    ensures var end := MarkAll(s, order); end == s || end.status in {Sent, Delivered, Read, Failed}
    decreases |order|
  {
    if order != [] {
      OnlyCallbackStatuses(Mark(s, order[0]), order[1..]);
    }
  }

  /** Why the order of timestamps matters: a delivery stamped after the reading hides the reading, if
      it comes first. */
  lemma LateDeliveryHidesReading()
    ensures var read, delivered := Callback(ReadWord, 1), Callback(DeliveredWord, 2);
            && MarkAll(Standing(Sent, None), [read, delivered]).status == Read
            && MarkAll(Standing(Sent, None), [delivered, read]).status == Delivered
  {
    var read, delivered := Callback(ReadWord, 1), Callback(DeliveredWord, 2);
    assert [read, delivered][1..] == [delivered] && [delivered, read][1..] == [read];
    assert MarkAll(Standing(Read, Some(1)), [delivered]) == MarkAll(Standing(Read, Some(1)), []);
    assert MarkAll(Standing(Delivered, Some(2)), [read]) == MarkAll(Standing(Delivered, Some(2)), []);
  }
}
