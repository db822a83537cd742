/** What the pieces of the splitter mean by themselves: white space, words, sentences and the limit. */
module SplitterMeaning {
  import opened Splitter
  import opened SplitterCovers
  import opened SplitterTheorems

  // ---------------------------------------------------------------- white space

  /** Section 12.2 of ECMA-262: tabs, form feed, byte order mark and the category Zs. */
  predicate WhiteSpace(c: CodeUnit) {
    || c in {0x9, 0xB, 0xC, 0xFEFF}
    || c in {0x20, 0xA0, 0x1680, 0x202F, 0x205F, 0x3000}
    || c in {0x2000, 0x2001, 0x2002, 0x2003, 0x2004, 0x2005, 0x2006, 0x2007, 0x2008, 0x2009, 0x200A}
  }

  /** Section 12.3 of ECMA-262: line feed, carriage return, line and paragraph separator. */
  predicate LineTerminator(c: CodeUnit) {
    c in {0xA, 0xD, 0x2028, 0x2029}
  }

  lemma SpacesAreEcmaScripts(c: CodeUnit)
    ensures IsSpace(c) <==> WhiteSpace(c) || LineTerminator(c)
  {
  }

  // ---------------------------------------------------------------- normalising keeps the words

  /** The longest runs of code units without white space, in order. */
  function Runs(t: Text): (runs: seq<Text>)
    ensures t != [] && !IsSpace(t[0]) ==> runs != [] && runs[0] != [] && runs[0][0] == t[0]
  {
    if t == [] then []
    else if IsSpace(t[0]) then Runs(t[1..])
    else if |t| == 1 || IsSpace(t[1]) then [[t[0]]] + Runs(t[1..])
    else [[t[0]] + Runs(t[1..])[0]] + Runs(t[1..])[1..]
  }

  /** The same first code unit, or both empty; and the same runs. */
  predicate Alike(a: Text, b: Text) {
    && (a == [] <==> b == []) && Runs(a) == Runs(b)
    && (a != [] ==> IsSpace(a[0]) == IsSpace(b[0]))
  }

  lemma AlikeCons(c: CodeUnit, a: Text, b: Text)
    requires Alike(a, b)
    ensures Alike([c] + a, [c] + b)
  {
    assert ([c] + a)[1..] == a && ([c] + b)[1..] == b;
  }

  lemma {:induction false} UnifyKeepsRuns(t: Text)
    ensures Alike(UnifyLineEnds(t), t)
  {
    if t == [] {
    } else if |t| >= 2 && t[0] == 13 && t[1] == 10 {
      UnifyKeepsRuns(t[2..]);
      assert ([10] + UnifyLineEnds(t[2..]))[1..] == UnifyLineEnds(t[2..]) && t[1..][1..] == t[2..];
    } else {
      UnifyKeepsRuns(t[1..]);
      AlikeCons(t[0], UnifyLineEnds(t[1..]), t[1..]);
      assert [t[0]] + t[1..] == t;
    }
  }

  lemma {:induction false} DropKeepsRuns(t: Text)
    ensures Runs(DropSpaces(t)) == Runs(t)
  {
    if t != [] && IsSpace(t[0]) {
      DropKeepsRuns(t[1..]);
    }
  }

  lemma {:induction false} CollapseKeepsRuns(t: Text)
    ensures Alike(Collapse(t), t)
    decreases |t|
  {
    if t == [] {
    } else if IsSpace(t[0]) {
      CollapseKeepsRuns(DropSpaces(t));
      DropKeepsRuns(t);
      assert ([SPACE] + Collapse(DropSpaces(t)))[1..] == Collapse(DropSpaces(t));
    } else {
      CollapseKeepsRuns(t[1..]);
      AlikeCons(t[0], Collapse(t[1..]), t[1..]);
      assert [t[0]] + t[1..] == t;
    }
  }

  lemma {:induction false} LastSpaceIsNoRun(t: Text, c: CodeUnit)
    requires IsSpace(c)
    ensures Runs(t + [c]) == Runs(t)
  {
    if t == [] {
      assert t + [c] == [c] && [c][1..] == [];
    } else {
      assert (t + [c])[1..] == t[1..] + [c];
      LastSpaceIsNoRun(t[1..], c);
    }
  }

  lemma {:induction false} DropTrailingKeepsRuns(t: Text)
    ensures Runs(DropTrailingSpaces(t)) == Runs(t)
  {
    if t != [] && IsSpace(t[|t| - 1]) {
      DropTrailingKeepsRuns(t[..|t| - 1]);
      LastSpaceIsNoRun(t[..|t| - 1], t[|t| - 1]);
      assert t == t[..|t| - 1] + [t[|t| - 1]];
    }
  }

  lemma JoinCons(c: CodeUnit, runs: seq<Text>)
    requires runs != []
    ensures Join([[c] + runs[0]] + runs[1..]) == [c] + Join(runs)
  {
    assert ([[c] + runs[0]] + runs[1..])[1..] == runs[1..];
  }

  lemma {:induction false} CleanIsJoinOfRuns(t: Text)
    requires Clean(t)
    ensures Join(Runs(t)) == t
    decreases |t|
  {
    if t == [] {
    } else if |t| == 1 {
      assert t[1..] == [] && t == [t[0]];
    } else if IsSpace(t[1]) {
      CleanSuffix(t, 1);
      CleanIsJoinOfRuns(t[2..]);
      assert t[1..][1..] == t[2..] && Runs(t[1..]) == Runs(t[2..]);
      assert ([[t[0]]] + Runs(t[2..]))[1..] == Runs(t[2..]);
      assert t == [t[0]] + [SPACE] + t[2..];
    } else {
      CleanSuffix(t, 1);
      CleanIsJoinOfRuns(t[1..]);
      JoinCons(t[0], Runs(t[1..]));
      assert t == [t[0]] + t[1..];
    }
  }

  /** Normalising gives the words of the message, in order, with one space between two of them. */
  lemma NormalizeJoinsTheWords(content: Text)
    ensures Normalize(content) == Join(Runs(content))
  {
    var u := UnifyLineEnds(content);
    UnifyKeepsRuns(content);
    CollapseKeepsRuns(u);
    DropKeepsRuns(Collapse(u));
    DropTrailingKeepsRuns(DropSpaces(Collapse(u)));
    NormalizeIsCleanAndFaithful(content);
    CleanIsJoinOfRuns(Normalize(content));
  }

  // ---------------------------------------------------------------- sentences

  predicate IsMark(c: CodeUnit) {
    c == '.' as int || c == '!' as int || c == '?' as int
  }

  /** White space at `i` that follows a full stop, an exclamation mark or a question mark. */
  predicate Boundary(t: Text, i: int) {
    0 < i < |t| && t[i] == SPACE && IsMark(t[i - 1])
  }

  /** A sentence has no boundary within it, and ends with a mark unless it is the last. */
  ghost predicate IsSentence(unit: Text, last: bool) {
    && unit != [] && (forall i :: !Boundary(unit, i))
    && (!last ==> IsMark(unit[|unit| - 1]))
  }

  lemma {:induction false} NoBoundaryBefore(t: Text, from: nat, i: int)
    requires Clean(t) && from <= |t| && from <= i < SentenceEnd(t, from)
    ensures !Boundary(t, i)
    decreases |t| - from
  {
    if from < i {
      NoBoundaryBefore(t, from + 1, i);
    }
  }

  ghost predicate AreSentences(units: seq<Text>) {
    forall k :: 0 <= k < |units| ==> IsSentence(units[k], k == |units| - 1)
  }

  lemma OneMoreSentence(head: Text, rest: seq<Text>)
    requires AreSentences(rest) && IsSentence(head, rest == [])
    ensures AreSentences([head] + rest)
  {
    hide IsSentence;
  }

  lemma FirstSentence(t: Text)
    requires Clean(t) && t != []
    ensures var i := SentenceEnd(t, 0); IsSentence(t[..i], i == |t|)
  {
    var i := SentenceEnd(t, 0);
    forall k | 0 < k < i ensures !Boundary(t[..i], k) {
      NoBoundaryBefore(t, 0, k);
    }
  }

  lemma SentencesInTwo(t: Text)
    requires Clean(t) && t != []
    ensures var i := SentenceEnd(t, 0);
            && i > 0 && (i == |t| ==> SentenceUnits(t) == [t[..i]])
            && (i < |t| ==>
                  i + 1 < |t| && Clean(t[i + 1..]) && SentenceUnits(t) == [t[..i]] + SentenceUnits(t[i + 1..]))
  {
    var i := SentenceEnd(t, 0);
    if i < |t| {
      CleanSuffix(t, i);
    }
  }

  lemma {:induction false} AllAreSentences(t: Text)
    requires Clean(t) && t != []
    ensures SentenceUnits(t) != [] && AreSentences(SentenceUnits(t))
    decreases |t|
  {
    hide SentenceUnits;
    hide IsSentence;
    hide Clean;
    var i := SentenceEnd(t, 0);
    SentencesInTwo(t);
    FirstSentence(t);
    if i < |t| {
      AllAreSentences(t[i + 1..]);
      OneMoreSentence(t[..i], SentenceUnits(t[i + 1..]));
    } else {
      OneMoreSentence(t[..i], []);
    }
  }

  /** The sentences of a clean text are exactly what its boundaries separate: together they are the text,
      and each ends at a mark and has no boundary within it. */
  lemma SentencesAreExact(t: Text)
    requires Clean(t) && t != []
    ensures var units := SentenceUnits(t);
            && units != [] && Join(units) == t
            && forall k :: 0 <= k < |units| ==> IsSentence(units[k], k == |units| - 1)
  {
    SentencesOfClean(t);
    AllAreSentences(t);
  }

  // ---------------------------------------------------------------- limits

  lemma RoundedUp(length: nat, parts: nat, n: int)
    requires parts >= 1
    ensures n >= (length + parts - 1) / parts <==> n * parts >= length
  {
    var q, r := (length + parts - 1) / parts, (length + parts - 1) % parts;
    assert length + parts - 1 == q * parts + r;
    if n >= q {
      assert n * parts >= q * parts by { Monotone(q, n, parts); }
    } else {
      assert n * parts <= (q - 1) * parts by { Monotone(n, q - 1, parts); }
      assert (q - 1) * parts == q * parts - parts;
    }
  }

  lemma Monotone(a: int, b: int, f: nat)
    requires a <= b
    ensures a * f <= b * f
  {
    assert (b - a) * f >= 0;
  }

  /** The first packing's limit is the least one, not below the threshold, at which `maxParts` full parts
      would hold the text; but never more than a part may have. */
  lemma TargetIsLeast(length: nat, splitThreshold: int, maxParts: int, maxPartChars: int, n: int)
    requires ValidLimits(splitThreshold, maxParts, maxPartChars)
    ensures n >= Target(length, splitThreshold, maxParts, maxPartChars) <==>
              n >= maxPartChars || (n >= splitThreshold && n * maxParts >= length)
  {
    RoundedUp(length, maxParts, n);
    hide Target;
    TargetInTwo(length, splitThreshold, maxParts, maxPartChars, n);
  }

  lemma TargetInTwo(length: nat, splitThreshold: int, maxParts: int, maxPartChars: int, n: int)
    requires ValidLimits(splitThreshold, maxParts, maxPartChars)
    ensures n >= Target(length, splitThreshold, maxParts, maxPartChars) <==>
              n >= maxPartChars || (n >= splitThreshold && n >= (length + maxParts - 1) / maxParts)
  {
  }

  lemma {:induction false} FirstRunIsNotEmpty(t: Text)
    ensures Runs(t) != [] ==> Runs(t)[0] != []
    ensures Join(Runs(t)) == [] <==> Runs(t) == []
  {
    if t != [] && IsSpace(t[0]) {
      FirstRunIsNotEmpty(t[1..]);
    }
  }

  /** Blank text is one empty part, whatever the limits are; other text is refused for its limits exactly
      if one of them is not positive. */
  lemma InvalidLimitsIff(content: Text, splitThreshold: int, maxParts: int, maxPartChars: int)
    ensures Runs(content) == [] <==> SplitMessage(content, splitThreshold, maxParts, maxPartChars) == Parts([[]])
    ensures SplitMessage(content, splitThreshold, maxParts, maxPartChars) == InvalidLimits <==>
              Runs(content) != [] && (splitThreshold <= 0 || maxParts <= 0 || maxPartChars <= 0)
  {
    NormalizeJoinsTheWords(content);
    NormalizeIsCleanAndFaithful(content);
    FirstRunIsNotEmpty(content);
    if Normalize(content) != [] && ValidLimits(splitThreshold, maxParts, maxPartChars) {
      SplitSucceedsIff(content, splitThreshold, maxParts, maxPartChars);
      if SplitMessage(content, splitThreshold, maxParts, maxPartChars).Parts? {
        SplitPreservesContent(content, splitThreshold, maxParts, maxPartChars);
      }
    }
  }

  /** With the limits that apply unless others are given, a reply of up to 5008 code units without a word
      of more than a thousand never fails: it becomes at most nine parts of at most a thousand code
      units, and one part if it has no more than 520. */
  lemma OrdinaryRepliesNeverFail(content: Text)
    requires Runs(content) != [] && |Normalize(content)| <= 5008 && WordsFit(Normalize(content), 1000)
    ensures var outcome := SplitMessage(content, DEFAULT_SPLIT_THRESHOLD, DEFAULT_MAX_PARTS, DEFAULT_MAX_PART_CHARS);
            && outcome == SplitMessage(content, 520, 9, 1000) && outcome.Parts?
            && |outcome.parts| <= 9 && (forall p | p in outcome.parts :: 0 < |p| <= 1000)
            && (|Normalize(content)| <= 520 ==> outcome.parts == [Join(Runs(content))])
  {
    NormalizeJoinsTheWords(content);
    FirstRunIsNotEmpty(content);
    hide Normalize;
    hide SplitMessage;
    hide Runs;
    ShortTextNeverFails(content, 520, 9, 1000);
    SplitPreservesContent(content, 520, 9, 1000);
  }
}
