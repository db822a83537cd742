/** What the splitter promises: nothing lost, nothing invented, both limits respected, and no
    failure that another way of breaking the text at its spaces would have avoided. */
module SplitterTheorems {
  import opened Splitter
  import opened SplitterCovers

  ghost predicate ValidLimits(splitThreshold: int, maxParts: int, maxPartChars: int) {
    maxParts >= 1 && maxPartChars >= 1 && splitThreshold >= 1
  }

  ghost predicate FitsUnsplit(text: Text, splitThreshold: int, maxPartChars: int) {
    |text| <= splitThreshold && |text| <= maxPartChars
  }

  /** The split loses and invents nothing, and respects both limits. */
  lemma SplitPreservesContent(content: Text, splitThreshold: int, maxParts: int, maxPartChars: int)
    requires SplitMessage(content, splitThreshold, maxParts, maxPartChars).Parts?
    requires Normalize(content) != []
    ensures ValidLimits(splitThreshold, maxParts, maxPartChars)
    ensures var text, parts := Normalize(content), SplitMessage(content, splitThreshold, maxParts, maxPartChars).parts;
            && |parts| <= maxParts
            && (forall p | p in parts :: 0 < |p| <= maxPartChars)
            && if FitsUnsplit(text, splitThreshold, maxPartChars) then parts == [text]
               else Covers(text, parts, LimitInForce(text, splitThreshold, maxParts, maxPartChars))
  {
    var text := Normalize(content);
    NormalizeIsCleanAndFaithful(content);
    if !FitsUnsplit(text, splitThreshold, maxPartChars) {
      DraftCovers(text, splitThreshold, maxParts, maxPartChars);
      CoversBounds(text, Draft(text, splitThreshold, maxParts, maxPartChars),
                   LimitInForce(text, splitThreshold, maxParts, maxPartChars));
    }
  }

  // ---------------------------------------------------------------- greedy packing is minimal

  /** The number of parts grows with the part being filled, and by at most one. */
  lemma {:induction false} PackMonotone(items: seq<Text>, c: Text, d: Text, limit: nat)
    requires c != [] && d != []
    requires forall x | x in items :: x != []
    ensures |Pack(items, c, limit)| <= 1 + |Pack(items, d, limit)|
    ensures |c| <= |d| ==> |Pack(items, c, limit)| <= |Pack(items, d, limit)|
  {
    if items != [] {
      var x, rest := items[0], items[1..];
      assert x in items && forall y | y in rest :: y in items;
      var cx, dx := Candidate(c, x), Candidate(d, x);
      PackMonotone(rest, cx, dx, limit);
      PackMonotone(rest, cx, x, limit);
      PackMonotone(rest, x, dx, limit);
    }
  }

  lemma {:induction false} PackAbsorbs(group: seq<Text>, rest: seq<Text>, c: Text, limit: nat)
    requires group != []
    requires forall x | x in group :: x != []
    requires |Candidate(c, Join(group))| <= limit
    ensures Pack(group + rest, c, limit) == Pack(rest, Candidate(c, Join(group)), limit)
  {
    var x, more := group[0], group[1..];
    assert x in group && forall y | y in more :: y in group;
    assert (group + rest)[1..] == more + rest;
    if more == [] {
      assert more + rest == rest;
    } else {
      assert Candidate(Candidate(c, x), Join(more)) == Candidate(c, Join(group));
      PackAbsorbs(more, rest, Candidate(c, x), limit);
    }
  }

  function Flatten(groups: seq<seq<Text>>): seq<Text> {
    if groups == [] then [] else groups[0] + Flatten(groups[1..])
  }

  /** A way of breaking `items`, in order, into groups that fit when joined by spaces. */
  ghost predicate Grouping(items: seq<Text>, groups: seq<seq<Text>>, limit: nat) {
    && Flatten(groups) == items
    && forall g | g in groups :: g != [] && |Join(g)| <= limit
  }

  /** A group that fits costs at most one part. */
  lemma GroupCostsOne(group: seq<Text>, rest: seq<Text>, limit: nat)
    requires group != [] && |Join(group)| <= limit
    requires (forall x | x in group :: x != []) && (forall x | x in rest :: x != [])
    ensures |Pack(group + rest, [], limit)| <= 1 + |Pack(rest, [], limit)|
  {
    PackAbsorbs(group, rest, [], limit);
    assert group[0] in group;
    if rest != [] {
      assert rest[0] in rest && forall x | x in rest[1..] :: x in rest;
      PackMonotone(rest[1..], Join(group), rest[0], limit);
      PackMonotone(rest[1..], Candidate(Join(group), rest[0]), rest[0], limit);
    }
  }

  lemma {:induction false} PackIsMinimal(items: seq<Text>, groups: seq<seq<Text>>, limit: nat)
    requires Grouping(items, groups, limit)
    requires forall x | x in items :: x != []
    ensures |Pack(items, [], limit)| <= |groups|
    decreases |groups|
  {
    if groups != [] {
      var g, more := groups[0], groups[1..];
      assert g in groups && forall h | h in more :: h in groups;
      assert forall x | x in g :: x in items;
      assert forall x | x in Flatten(more) :: x in items;
      PackIsMinimal(Flatten(more), more, limit);
      GroupCostsOne(g, Flatten(more), limit);
    }
  }

  ghost function Joined(groups: seq<seq<Text>>): seq<Text> {
    if groups == [] then [] else [Join(groups[0])] + Joined(groups[1..])
  }

  lemma {:induction false} JoinSnoc(g: seq<Text>, x: Text)
    requires g != []
    ensures Join(g + [x]) == Join(g) + [SPACE] + x
  {
    if |g| > 1 {
      assert (g + [x])[1..] == g[1..] + [x];
      JoinSnoc(g[1..], x);
    }
  }

  lemma GroupingCons(g: seq<Text>, items: seq<Text>, groups: seq<seq<Text>>, limit: nat)
    requires g != [] && |Join(g)| <= limit && Grouping(items, groups, limit)
    ensures Grouping(g + items, [g] + groups, limit)
    ensures Joined([g] + groups) == [Join(g)] + Joined(groups)
  {
    assert ([g] + groups)[1..] == groups;
  }

  lemma FillingGrows(filling: seq<Text>, x: Text)
    requires filling != [] ==> Join(filling) != []
    ensures Join(filling + [x]) == Candidate(Join(filling), x)
  {
    if filling != [] { JoinSnoc(filling, x); }
  }

  lemma FillingFlushed(filling: seq<Text>, x: Text, rest: seq<Text>, tail: seq<seq<Text>>, limit: nat)
    requires filling != [] && 0 < |Join(filling)| <= limit && |Candidate(Join(filling), x)| > limit
    requires Grouping([x] + rest, tail, limit) && Joined(tail) == Pack(rest, x, limit)
    ensures Grouping(filling + ([x] + rest), [filling] + tail, limit)
    ensures Joined([filling] + tail) == Pack([x] + rest, Join(filling), limit)
  {
    GroupingCons(filling, [x] + rest, tail, limit);
    assert ([x] + rest)[1..] == rest;
  }

  lemma FillingJoined(filling: seq<Text>, x: Text, rest: seq<Text>, limit: nat)
    requires filling != [] ==> Join(filling) != [] && |Candidate(Join(filling), x)| <= limit
    ensures filling + [x] + rest == filling + ([x] + rest)
    ensures Pack([x] + rest, Join(filling), limit) == Pack(rest, Join(filling + [x]), limit)
  {
    FillingGrows(filling, x);
    assert ([x] + rest)[1..] == rest;
  }

  /** The parts of the packing loop are themselves such a grouping. */
  lemma {:induction false} PackIsGrouping(items: seq<Text>, filling: seq<Text>, limit: nat)
    returns (groups: seq<seq<Text>>)
    requires forall x | x in items :: 0 < |x| <= limit
    requires filling != [] ==> 0 < |Join(filling)| <= limit
    ensures Grouping(filling + items, groups, limit)
    ensures Joined(groups) == Pack(items, Join(filling), limit)
    decreases |items|
  {
    if items == [] {
      if filling == [] {
        groups := [];
      } else {
        GroupingCons(filling, [], [], limit);
        groups := [filling] + [];
      }
    } else {
      var x, rest := items[0], items[1..];
      assert x in items && forall y | y in rest :: y in items;
      assert items == [x] + rest;
      if filling != [] && |Candidate(Join(filling), x)| > limit {
        var tail := PackIsGrouping(rest, [x], limit);
        FillingFlushed(filling, x, rest, tail, limit);
        groups := [filling] + tail;
      } else {
        FillingGrows(filling, x);
        FillingJoined(filling, x, rest, limit);
        groups := PackIsGrouping(rest, filling + [x], limit);
      }
    }
  }

  lemma {:induction false} JoinConcat(a: seq<Text>, b: seq<Text>)
    requires a != [] && b != []
    ensures Join(a + b) == Join(a) + [SPACE] + Join(b)
  {
    assert a + b == [a[0]] + (a[1..] + b);
    if |a| == 1 {
      assert a[1..] + b == b;
    } else {
      JoinConcat(a[1..], b);
    }
  }

  lemma {:induction false} JoinedKeepsText(items: seq<Text>, groups: seq<seq<Text>>, limit: nat)
    requires Grouping(items, groups, limit)
    ensures Join(Joined(groups)) == Join(items) && |Joined(groups)| == |groups|
    ensures forall p | p in Joined(groups) :: |p| <= limit
    decreases |groups|
  {
    if groups != [] {
      var g, more := groups[0], groups[1..];
      assert g in groups && forall h | h in more :: h in groups;
      JoinedKeepsText(Flatten(more), more, limit);
      if more == [] {
        assert g + Flatten(more) == g;
      } else {
        assert more[0] in groups;
        JoinConcat(g, Flatten(more));
      }
    }
  }

  // ---------------------------------------------------------------- when the splitter fails

  /** No word is longer than `m`. */
  ghost predicate WordsFit(text: Text, m: nat) {
    forall lo, hi | 0 <= lo <= hi <= |text| && NoSpace(text[lo..hi]) :: hi - lo <= m
  }

  lemma WordsFitSuffix(text: Text, i: nat, m: nat)
    requires WordsFit(text, m) && i <= |text|
    ensures WordsFit(text[i..], m)
  {
    forall lo, hi | 0 <= lo <= hi <= |text[i..]| && NoSpace(text[i..][lo..hi]) ensures hi - lo <= m {
      assert text[i..][lo..hi] == text[lo + i..hi + i];
    }
  }

  /** A way of breaking the text at spaces into pieces of at most `m`. */
  ghost predicate Breaking(text: Text, pieces: seq<Text>, m: nat) {
    && pieces != []
    && Join(pieces) == text
    && forall p | p in pieces :: |p| <= m
  }

  /** A breaking of clean text groups its words. */
  lemma {:induction false} BreakingGroupsWords(text: Text, pieces: seq<Text>, m: nat)
    returns (groups: seq<seq<Text>>)
    requires Clean(text) && text != [] && Breaking(text, pieces, m)
    ensures Grouping(Words(text), groups, m) && |groups| == |pieces|
  {
    var p := pieces[0];
    assert p in pieces;
    if |pieces| == 1 {
      WordsOfClean(text);
      groups := [Words(text)];
      assert Flatten(groups[1..]) == [];
    } else {
      var rest := Join(pieces[1..]);
      assert text == p + [SPACE] + rest;
      assert text[|p|] == SPACE;
      CleanSuffix(text, |p|);
      assert text[..|p|] == p && text[|p| + 1..] == rest;
      WordsConcat(p, rest);
      WordsOfClean(p);
      var tail := BreakingGroupsWords(rest, pieces[1..], m);
      groups := [Words(p)] + tail;
      assert groups[1..] == tail;
    }
  }

  lemma {:induction false} FillIsPack(words: seq<Text>, current: Text, limit: nat)
    requires limit >= 1 && forall w | w in words :: |w| <= limit
    ensures Fill(words, current, limit) == Pack(words, current, limit)
  {
    if words != [] {
      assert words[0] in words && forall w | w in words[1..] :: w in words;
      FillIsPack(words[1..], words[0], limit);
      FillIsPack(words[1..], Candidate(current, words[0]), limit);
    }
  }

  lemma {:induction false} WordsAreShort(text: Text, m: nat)
    requires Clean(text) && text != [] && WordsFit(text, m)
    ensures forall w | w in Words(text) :: |w| <= m
    decreases |text|
  {
    var i := WordEnd(text);
    assert NoSpace(text[0..i]);
    assert text[0..i] == text[..i];
    if i < |text| {
      CleanSuffix(text, i);
      WordsFitSuffix(text, i + 1, m);
      WordsAreShort(text[i + 1..], m);
    }
  }

  lemma CutMeansLongWord(text: Text, part: Text, rest: Text, limit: nat)
    requires text == part + rest && rest != [] && |part| == limit && NoSpace(part) && !IsSpace(rest[0])
    ensures !WordsFit(text, limit)
  {
    assert text[limit] == rest[0];
    assert NoSpace(text[0..limit + 1]);
  }

  /** Without words longer than the limit, the parts joined by spaces are the text. */
  lemma {:induction false} CoverWithoutCutsJoins(text: Text, parts: seq<Text>, limit: nat)
    requires Covers(text, parts, limit) && WordsFit(text, limit)
    ensures Join(parts) == text
    decreases |parts|
  {
    if |parts| > 1 {
      var gap, rest := CoversUncons(text, parts, limit);
      WordsFitSuffix(text, |parts[0]| + |gap|, limit);
      assert rest == text[|parts[0]| + |gap|..];
      assert gap == [SPACE] by {
        if gap == [] {
          CutMeansLongWord(text, parts[0], rest, limit);
        }
      }
      CoverWithoutCutsJoins(rest, parts[1..], limit);
    }
  }

  /** The number of parts that word packing needs. */
  ghost function Fewest(text: Text, m: nat): nat {
    |Pack(Words(text), [], m)|
  }

  /** No breaking has fewer pieces, and one has exactly as many. */
  lemma FewestIsFewest(text: Text, m: nat) returns (best: seq<Text>)
    requires Clean(text) && text != [] && WordsFit(text, m)
    ensures Breaking(text, best, m) && |best| == Fewest(text, m)
    ensures forall pieces | Breaking(text, pieces, m) :: Fewest(text, m) <= |pieces|
  {
    WordsOfClean(text);
    WordsAreShort(text, m);
    var groups := PackIsGrouping(Words(text), [], m);
    assert [] + Words(text) == Words(text);
    JoinedKeepsText(Words(text), groups, m);
    best := Joined(groups);
    forall pieces | Breaking(text, pieces, m) ensures Fewest(text, m) <= |pieces| {
      var other := BreakingGroupsWords(text, pieces, m);
      PackIsMinimal(Words(text), other, m);
    }
  }

  lemma SecondPassIsFewest(text: Text, m: nat)
    requires m >= 1 && Clean(text) && text != [] && WordsFit(text, m)
    ensures |SplitLong(text, m)| == Fewest(text, m)
  {
    WordsOfClean(text);
    WordsAreShort(text, m);
    FillIsPack(Words(text), [], m);
    if |text| <= m {
      PackAbsorbs(Words(text), [], [], m);
      assert Words(text) + [] == Words(text);
    }
  }

  lemma WordsUnfold(t: Text, i: nat)
    requires i == WordEnd(t)
    ensures Words(t) == if i == |t| then [t] else [t[..i]] + Words(DropSpaces(t[i..]))
  {
  }

  lemma WordsAfterCut(p: Text, rest: Text)
    requires NoSpace(p)
    ensures Words(p + rest) == [p + Words(rest)[0]] + Words(rest)[1..]
  {
    hide Words;
    hide DropSpaces;
    var t, i := p + rest, WordEnd(rest);
    WordEndShift(p, rest);
    WordsUnfold(t, |p| + i);
    WordsUnfold(rest, i);
    assert t[|p| + i..] == rest[i..] && t[..|p| + i] == p + rest[..i];
  }

  lemma {:induction false} WordEndShift(p: Text, rest: Text)
    requires NoSpace(p)
    ensures WordEnd(p + rest) == |p| + WordEnd(rest)
  {
    if p == [] {
      assert p + rest == rest;
    } else {
      assert (p + rest)[1..] == p[1..] + rest;
      WordEndShift(p[1..], rest);
    }
  }

  lemma CutAtSpace(p: Text, rest: Text, m: nat)
    requires Clean(p + [SPACE] + rest) && |p| <= m
    ensures Fewest(p + [SPACE] + rest, m) <= 1 + Fewest(rest, m)
  {
    var text := p + [SPACE] + rest;
    assert text[|p|] == SPACE;
    CleanSuffix(text, |p|);
    assert text[..|p|] == p && text[|p| + 1..] == rest;
    WordsConcat(p, rest);
    WordsOfClean(p);
    WordsOfClean(rest);
    GroupCostsOne(Words(p), Words(rest), m);
  }

  lemma CutInsideWord(p: Text, rest: Text, m: nat)
    requires Clean(p + rest) && NoSpace(p) && p != [] && rest != [] && !IsSpace(rest[0])
    ensures Fewest(p + rest, m) <= 1 + Fewest(rest, m)
  {
    assert (p + rest)[|p|..] == rest;
    CleanSuffix(p + rest, |p|);
    WordsAfterCut(p, rest);
    WordsOfClean(rest);
    var ws := Words(rest);
    assert ws[0] in ws && forall w | w in ws[1..] :: w in ws;
    PackMonotone(ws[1..], p + ws[0], ws[0], m);
  }

  /** Cutting inside words never saves a part. */
  lemma {:induction false} CutsDoNotHelp(text: Text, parts: seq<Text>, limit: nat, m: nat)
    requires Clean(text) && Covers(text, parts, limit) && limit <= m
    ensures Fewest(text, m) <= |parts|
    decreases |parts|
  {
    var p := parts[0];
    if |parts| == 1 {
      WordsOfClean(text);
      assert Words(text) + [] == Words(text);
      GroupCostsOne(Words(text), [], m);
    } else {
      var gap, rest := CoversUncons(text, parts, limit);
      assert rest == text[|p| + |gap|..];
      if gap != [] {
        CutAtSpace(p, rest, m);
        assert text[|p|] == SPACE;
        CleanSuffix(text, |p|);
      } else {
        assert p + gap + rest == p + rest;
        CutInsideWord(p, rest, m);
        CleanSuffix(text, |p|);
      }
      CutsDoNotHelp(rest, parts[1..], limit, m);
    }
  }

  /** Splitting succeeds exactly when the text need not be split or one of the two packings has few
      enough parts: no part is ever too long. */
  lemma SplitSucceedsIff(content: Text, splitThreshold: int, maxParts: int, maxPartChars: int)
    requires ValidLimits(splitThreshold, maxParts, maxPartChars) && Normalize(content) != []
    ensures SplitMessage(content, splitThreshold, maxParts, maxPartChars).Parts?
       <==> var text := Normalize(content);
            var target := Target(|text|, splitThreshold, maxParts, maxPartChars);
            || FitsUnsplit(text, splitThreshold, maxPartChars)
            || |Pack(FlatSplit(SentenceUnits(text), target), [], target)| <= maxParts
            || |SplitLong(text, maxPartChars)| <= maxParts
    ensures SplitMessage(content, splitThreshold, maxParts, maxPartChars) != InvalidLimits
  {
    hide Normalize;
    hide SentenceUnits;
    hide FlatSplit;
    hide Pack;
    hide SplitLong;
    hide Target;
    hide Covers;
    var text := Normalize(content);
    NormalizeIsCleanAndFaithful(content);
    DraftCovers(text, splitThreshold, maxParts, maxPartChars);
    CoversBounds(text, Draft(text, splitThreshold, maxParts, maxPartChars),
                 LimitInForce(text, splitThreshold, maxParts, maxPartChars));
  }

  /** Without a word longer than a part may be, it succeeds exactly when the fewest pieces possible are
      few enough, and those of the second packing are that many. */
  lemma SplitSucceedsIffFewEnough(content: Text, splitThreshold: int, maxParts: int, maxPartChars: int)
    requires ValidLimits(splitThreshold, maxParts, maxPartChars)
    requires Normalize(content) != [] && WordsFit(Normalize(content), maxPartChars)
    ensures SplitMessage(content, splitThreshold, maxParts, maxPartChars).Parts?
       <==> Fewest(Normalize(content), maxPartChars) <= maxParts
    ensures |SplitLong(Normalize(content), maxPartChars)| == Fewest(Normalize(content), maxPartChars)
  {
    var text := Normalize(content);
    NormalizeIsCleanAndFaithful(content);
    SplitSucceedsIff(content, splitThreshold, maxParts, maxPartChars);
    SecondPassIsFewest(text, maxPartChars);
    if FitsUnsplit(text, splitThreshold, maxPartChars) {
    } else {
      var draft := Draft(text, splitThreshold, maxParts, maxPartChars);
      DraftCovers(text, splitThreshold, maxParts, maxPartChars);
      CutsDoNotHelp(text, draft, LimitInForce(text, splitThreshold, maxParts, maxPartChars), maxPartChars);
    }
  }

  // With a longer word the second packing need not be the better one: the first puts what is left of
  // the word together with the next, and the second does not.

  const LONG_WORD: Text := seq(13, i => 0x61)
  const SHORT_WORD: Text := [0x61, 0x62]
  const TWO_WORDS: Text := LONG_WORD + [SPACE] + SHORT_WORD

  lemma {:induction false} NoSentenceEnds(t: Text, from: nat)
    requires from <= |t| && forall i :: 0 <= i < |t| ==> !EndsSentence(t[i])
    ensures SentenceEnd(t, from) == |t|
    decreases |t| - from
  {
    if from < |t| {
      NoSentenceEnds(t, from + 1);
    }
  }

  lemma TwoWords()
    ensures Clean(TWO_WORDS) && Words(TWO_WORDS) == [LONG_WORD, SHORT_WORD] && SentenceUnits(TWO_WORDS) == [TWO_WORDS]
  {
    hide WordEnd;
    NoSentenceEnds(TWO_WORDS, 0);
    assert TWO_WORDS[..|TWO_WORDS|] == TWO_WORDS;
    WordEndShift(LONG_WORD, []);
    WordEndShift(LONG_WORD, [SPACE] + SHORT_WORD);
    WordEndShift(SHORT_WORD, []);
    assert LONG_WORD + [] == LONG_WORD && SHORT_WORD + [] == SHORT_WORD;
    assert LONG_WORD + ([SPACE] + SHORT_WORD) == TWO_WORDS;
    NoWordAhead();
    WordsUnfold(TWO_WORDS, 13);
    WordsUnfold(SHORT_WORD, 2);
    assert TWO_WORDS[13..] == [SPACE] + SHORT_WORD && TWO_WORDS[..13] == LONG_WORD;
    assert ([SPACE] + SHORT_WORD)[1..] == SHORT_WORD;
  }

  lemma NoWordAhead()
    ensures WordEnd([]) == 0 && WordEnd([SPACE] + SHORT_WORD) == 0
  {
  }

  lemma TwoPackings()
    ensures SplitLong(TWO_WORDS, 10) == [LONG_WORD[..10], LONG_WORD[10..], SHORT_WORD]
    ensures Pack(FlatSplit([TWO_WORDS], 10), [], 10) == [LONG_WORD[..10], LONG_WORD[10..] + [SPACE] + SHORT_WORD]
  {
    TwoWords();
    hide Words;
    var head, rest := LONG_WORD[..10], LONG_WORD[10..];
    assert Chunks(LONG_WORD, 10) == [head] + Chunks(rest, 10) == [head, rest];
    assert Fill([SHORT_WORD], [], 10) == Fill([], SHORT_WORD, 10) == [SHORT_WORD];
    assert Fill([LONG_WORD, SHORT_WORD], [], 10) == [] + [head, rest] + [SHORT_WORD];
    var items := [head, rest, SHORT_WORD];
    assert FlatSplit([TWO_WORDS], 10) == items + FlatSplit([], 10) == items;
    var joined := rest + [SPACE] + SHORT_WORD;
    assert Pack([], joined, 10) == [joined];
    assert Pack([SHORT_WORD], rest, 10) == Pack([], joined, 10);
    assert items[1..] == [rest, SHORT_WORD] && [rest, SHORT_WORD][1..] == [SHORT_WORD] && [SHORT_WORD][1..] == [];
    assert Pack([rest, SHORT_WORD], head, 10) == [head] + Pack([SHORT_WORD], rest, 10);
    assert Pack(items, [], 10) == Pack([rest, SHORT_WORD], head, 10);
  }

  /** A text that is split in two although its second packing needs three parts. */
  lemma FirstPackingMayBeBetter()
    ensures SplitMessage(TWO_WORDS, 10, 2, 10) == Parts([LONG_WORD[..10], LONG_WORD[10..] + [SPACE] + SHORT_WORD])
    ensures |SplitLong(Normalize(TWO_WORDS), 10)| == 3
  {
    TwoWords();
    TwoPackings();
    NormalizeFixesClean(TWO_WORDS);
    hide Normalize;
    hide Pack;
    hide FlatSplit;
    hide SplitLong;
    hide SentenceUnits;
    assert Target(16, 10, 2, 10) == 10;
  }

  /** With valid limits and no word longer than a part may be, the splitter succeeds exactly when
      some way of breaking the text at its spaces respects both limits. */
  lemma SplitFailsOnlyWhenItMust(content: Text, splitThreshold: int, maxParts: int, maxPartChars: int)
    requires ValidLimits(splitThreshold, maxParts, maxPartChars)
    requires Normalize(content) != [] && WordsFit(Normalize(content), maxPartChars)
    ensures SplitMessage(content, splitThreshold, maxParts, maxPartChars).Parts?
       <==> exists pieces :: Breaking(Normalize(content), pieces, maxPartChars) && |pieces| <= maxParts
  {
    NormalizeIsCleanAndFaithful(content);
    SplitSucceedsIffFewEnough(content, splitThreshold, maxParts, maxPartChars);
    var best := FewestIsFewest(Normalize(content), maxPartChars);
  }

  /** Two neighbouring parts never fit in one: what `n` parts, the first `first` long, need. */
  ghost function LengthNeeded(n: nat, first: nat, limit: nat): nat {
    if n == 0 then 0
    else if n == 1 then first + 1
    else LengthNeeded(n - 2, first, limit) + limit + 2
  }

  lemma {:induction false} LengthNeededStep(n: nat, first: nat, second: nat, limit: nat)
    requires n >= 1 && first + 1 + second > limit
    ensures first + 1 + LengthNeeded(n, second, limit) >= LengthNeeded(n + 1, first, limit)
  {
    if n > 2 {
      LengthNeededStep(n - 2, first, second, limit);
    }
  }

  lemma {:induction false} LengthNeededGrows(n: nat, first: nat, more: nat, limit: nat)
    requires first <= more
    ensures LengthNeeded(n, first, limit) <= LengthNeeded(n, more, limit)
  {
    if n >= 2 {
      LengthNeededGrows(n - 2, first, more, limit);
    }
  }

  lemma {:induction false} LengthNeededInPairs(n: nat, first: nat, limit: nat)
    ensures LengthNeeded(n, first, limit) >= n / 2 * (limit + 2)
  {
    if n >= 2 {
      LengthNeededInPairs(n - 2, first, limit);
      assert n / 2 == (n - 2) / 2 + 1;
      assert n / 2 * (limit + 2) == (n - 2) / 2 * (limit + 2) + (limit + 2);
    }
  }

  lemma {:induction false} ManyPartsNeedLength(items: seq<Text>, c: Text, limit: nat)
    requires c != [] && forall x | x in items :: x != []
    ensures |Pack(items, c, limit)| >= 1
    ensures |Pending(c, items)| + 1 >= LengthNeeded(|Pack(items, c, limit)|, |c|, limit)
  {
    if items == [] {
    } else {
      var x, rest := items[0], items[1..];
      assert x in items && forall y | y in rest :: y in items;
      assert items == [x] + rest;
      PendingCons(c, x, rest);
      if |Candidate(c, x)| > limit {
        ManyPartsNeedLength(rest, x, limit);
        LengthNeededStep(|Pack(rest, x, limit)|, |c|, |x|, limit);
      } else {
        ManyPartsNeedLength(rest, Candidate(c, x), limit);
        LengthNeededGrows(|Pack(items, c, limit)|, |c|, |Candidate(c, x)|, limit);
      }
    }
  }

  lemma FewestNeedsLength(text: Text, m: nat)
    requires Clean(text) && text != []
    ensures |text| + 1 >= Fewest(text, m) / 2 * (m + 2)
  {
    WordsOfClean(text);
    var ws := Words(text);
    var c, rest := ws[0], ws[1..];
    assert c in ws && forall w | w in rest :: w in ws;
    assert ws == [c] + rest;
    ManyPartsNeedLength(rest, c, m);
    PendingCons([], c, rest);
    LengthNeededInPairs(Fewest(text, m), |c|, m);
  }

  lemma HalvesGrow(a: nat, b: nat, f: nat)
    requires a >= b
    ensures a / 2 * f >= b / 2 * f
  {
  }

  /** A length below which the splitter cannot fail. */
  lemma ShortTextNeverFails(content: Text, splitThreshold: int, maxParts: int, maxPartChars: int)
    requires ValidLimits(splitThreshold, maxParts, maxPartChars)
    requires Normalize(content) != [] && WordsFit(Normalize(content), maxPartChars)
    requires |Normalize(content)| + 1 < (maxParts + 1) / 2 * (maxPartChars + 2)
    ensures SplitMessage(content, splitThreshold, maxParts, maxPartChars).Parts?
  {
    hide SplitMessage, Normalize, Fewest;
    var text, m := Normalize(content), maxPartChars as nat;
    NormalizeIsCleanAndFaithful(content);
    SplitSucceedsIffFewEnough(content, splitThreshold, maxParts, maxPartChars);
    var n := Fewest(text, m);
    if n > maxParts {
      assert |text| + 1 >= n / 2 * (m + 2) by { FewestNeedsLength(text, m); }
      HalvesGrow(n, maxParts + 1, m + 2);
    }
  }

  /** The bound of the shorter form, in the program's own limits. */
  lemma ShortTextNeverFailsSimply(content: Text, splitThreshold: int, maxParts: int, maxPartChars: int)
    requires ValidLimits(splitThreshold, maxParts, maxPartChars)
    requires Normalize(content) != [] && WordsFit(Normalize(content), maxPartChars)
    requires |Normalize(content)| < (maxParts + 1) / 2 * (maxPartChars + 1)
    ensures SplitMessage(content, splitThreshold, maxParts, maxPartChars).Parts?
  {
    hide SplitMessage, Normalize;
    var k := (maxParts + 1) / 2;
    assert k * (maxPartChars + 2) == k * (maxPartChars + 1) + k;
    ShortTextNeverFails(content, splitThreshold, maxParts, maxPartChars);
  }

  // ---------------------------------------------------------------- sentences stay whole

  lemma {:induction false} FlatSplitKeepsShort(units: seq<Text>, limit: nat)
    requires limit >= 1 && forall u | u in units :: |u| <= limit
    ensures FlatSplit(units, limit) == units
  {
    if units != [] {
      assert units[0] in units && forall u | u in units[1..] :: u in units;
      FlatSplitKeepsShort(units[1..], limit);
    }
  }

  /** Greedy packing of the sentences of a text groups them, and no grouping has fewer groups. */
  lemma SentencesAreGrouped(text: Text, target: nat)
    requires target >= 1 && Clean(text) && text != [] && forall u | u in SentenceUnits(text) :: |u| <= target
    ensures var units := SentenceUnits(text);
            var parts := Pack(units, [], target);
            && FlatSplit(units, target) == units
            && (exists groups :: Grouping(units, groups, target) && parts == Joined(groups))
            && (forall groups :: Grouping(units, groups, target) ==> |parts| <= |groups|)
  {
    var units := SentenceUnits(text);
    FlatSplitKeepsShort(units, target);
    SentencesOfClean(text);
    hide SentenceUnits;
    hide Pack;
    hide FlatSplit;
    var groups := PackIsGrouping(units, [], target);
    assert [] + units == units;
    forall gs | Grouping(units, gs, target) ensures |Pack(units, [], target)| <= |gs| {
      PackIsMinimal(units, gs, target);
    }
  }

  /** When every sentence fits the target and the first pass suffices, each part is a run of whole
      sentences, and no other grouping of the sentences within the target has fewer parts. */
  lemma SentencesStayWhole(content: Text, splitThreshold: int, maxParts: int, maxPartChars: int)
    requires ValidLimits(splitThreshold, maxParts, maxPartChars)
    requires Normalize(content) != [] && !FitsUnsplit(Normalize(content), splitThreshold, maxPartChars)
    requires var text := Normalize(content);
             var target := Target(|text|, splitThreshold, maxParts, maxPartChars);
             && (forall u | u in SentenceUnits(text) :: |u| <= target)
             && |Pack(SentenceUnits(text), [], target)| <= maxParts
    ensures var text := Normalize(content);
            var target := Target(|text|, splitThreshold, maxParts, maxPartChars);
            && SplitMessage(content, splitThreshold, maxParts, maxPartChars).Parts?
            && var parts := SplitMessage(content, splitThreshold, maxParts, maxPartChars).parts;
            && (exists groups :: Grouping(SentenceUnits(text), groups, target) && parts == Joined(groups))
            && (forall groups :: Grouping(SentenceUnits(text), groups, target) ==> |parts| <= |groups|)
  {
    var text := Normalize(content);
    var target := Target(|text|, splitThreshold, maxParts, maxPartChars);
    NormalizeIsCleanAndFaithful(content);
    SentencesAreGrouped(text, target);
    SplitSucceedsIff(content, splitThreshold, maxParts, maxPartChars);
    hide Normalize;
    hide SentenceUnits;
    hide FlatSplit;
    hide Pack;
    hide Grouping;
    hide Joined;
    hide Target;
  }
}
