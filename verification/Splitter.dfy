/** The WhatsApp message splitter.

    A message is a sequence of UTF-16 code units, because every length and every slice in the
    program counts code units. */
module Splitter {

  type CodeUnit = c: nat | c < 0x10000
  type Text = seq<CodeUnit>

  const SPACE: CodeUnit := 0x20

  /** White space as ECMAScript patterns understand it. */
  predicate IsSpace(c: CodeUnit) {
    || 9 <= c <= 13
    || c == SPACE
    || c in {0xA0, 0x1680, 0x2028, 0x2029, 0x202F, 0x205F, 0x3000, 0xFEFF}
    || 0x2000 <= c <= 0x200A
  }

  /** A full stop, an exclamation mark or a question mark. */
  predicate EndsSentence(c: CodeUnit) {
    c in {0x2E, 0x21, 0x3F}
  }

  // ---------------------------------------------------------------- normalisation

  function UnifyLineEnds(t: Text): Text {
    if |t| == 0 then []
    else if |t| >= 2 && t[0] == 13 && t[1] == 10 then [10] + UnifyLineEnds(t[2..])
    else [t[0]] + UnifyLineEnds(t[1..])
  }

  function DropSpaces(t: Text): (r: Text)
    ensures |r| <= |t|
    ensures r == [] || !IsSpace(r[0])
    ensures t != [] && IsSpace(t[0]) ==> |r| < |t|
  {
    if t != [] && IsSpace(t[0]) then DropSpaces(t[1..]) else t
  }

  /** Every run of white space becomes one space. */
  function Collapse(t: Text): Text
    decreases |t|
  {
    if t == [] then []
    else if IsSpace(t[0]) then [SPACE] + Collapse(DropSpaces(t))
    else [t[0]] + Collapse(t[1..])
  }

  function DropTrailingSpaces(t: Text): (r: Text)
    ensures r <= t
    ensures r == [] || !IsSpace(r[|r| - 1])
  {
    if t != [] && IsSpace(t[|t| - 1]) then DropTrailingSpaces(t[..|t| - 1]) else t
  }

  function Normalize(content: Text): Text {
    DropTrailingSpaces(DropSpaces(Collapse(UnifyLineEnds(content))))
  }

  /** Words separated by single spaces, with nothing before or after them. */
  ghost predicate Clean(t: Text) {
    && (forall i :: 0 <= i < |t| && IsSpace(t[i]) ==> t[i] == SPACE && 0 < i < |t| - 1)
    && (forall i :: 0 < i < |t| && IsSpace(t[i]) ==> !IsSpace(t[i - 1]))
  }

  /** What a reader sees: the text without its white space. */
  function Ink(t: Text): Text {
    if t == [] then []
    else if IsSpace(t[0]) then Ink(t[1..])
    else [t[0]] + Ink(t[1..])
  }

  lemma {:induction false} InkConcat(a: Text, b: Text)
    ensures Ink(a + b) == Ink(a) + Ink(b)
  {
    if a == [] {
      assert a + b == b;
    } else {
      assert (a + b)[1..] == a[1..] + b;
      InkConcat(a[1..], b);
    }
  }

  lemma {:induction false} UnifyKeepsInk(t: Text)
    ensures Ink(UnifyLineEnds(t)) == Ink(t)
  {
    if |t| == 0 {
    } else if |t| >= 2 && t[0] == 13 && t[1] == 10 {
      UnifyKeepsInk(t[2..]);
      assert t[1..][1..] == t[2..];
    } else {
      UnifyKeepsInk(t[1..]);
    }
  }

  lemma {:induction false} DropKeepsInk(t: Text)
    ensures Ink(DropSpaces(t)) == Ink(t)
  {
    if t != [] && IsSpace(t[0]) {
      DropKeepsInk(t[1..]);
    }
  }

  lemma {:induction false} DropTrailingKeepsInk(t: Text)
    ensures Ink(DropTrailingSpaces(t)) == Ink(t)
  {
    if t != [] && IsSpace(t[|t| - 1]) {
      DropTrailingKeepsInk(t[..|t| - 1]);
      assert t == t[..|t| - 1] + [t[|t| - 1]];
      InkConcat(t[..|t| - 1], [t[|t| - 1]]);
    }
  }

  lemma {:induction false} CollapseKeepsInk(t: Text)
    ensures Ink(Collapse(t)) == Ink(t)
    decreases |t|
  {
    if t == [] {
    } else if IsSpace(t[0]) {
      CollapseKeepsInk(DropSpaces(t));
      DropKeepsInk(t);
    } else {
      CollapseKeepsInk(t[1..]);
    }
  }

  /** No two neighbouring spaces, and no other white space. */
  ghost predicate Collapsed(t: Text) {
    && (forall i :: 0 <= i < |t| && IsSpace(t[i]) ==> t[i] == SPACE)
    && (forall i :: 0 < i < |t| && IsSpace(t[i]) ==> !IsSpace(t[i - 1]))
  }

  lemma {:induction false} CollapseCollapses(t: Text)
    ensures Collapsed(Collapse(t))
    ensures t != [] && !IsSpace(t[0]) ==> Collapse(t) != [] && Collapse(t)[0] == t[0]
    ensures t == [] ==> Collapse(t) == []
    decreases |t|
  {
    if t == [] {
    } else if IsSpace(t[0]) {
      CollapseCollapses(DropSpaces(t));
    } else {
      CollapseCollapses(t[1..]);
    }
  }

  lemma {:induction false} DropStaysCollapsed(t: Text)
    requires Collapsed(t)
    ensures Collapsed(DropSpaces(t))
  {
    if t != [] && IsSpace(t[0]) {
      DropStaysCollapsed(t[1..]);
    }
  }

  lemma EndsOfCollapsed(t: Text)
    requires Collapsed(t)
    ensures Clean(DropTrailingSpaces(DropSpaces(t)))
  {
    DropStaysCollapsed(t);
    var d := DropSpaces(t);
    assert forall i :: 0 <= i < |DropTrailingSpaces(d)| ==> DropTrailingSpaces(d)[i] == d[i];
    hide DropSpaces;
    hide DropTrailingSpaces;
    hide IsSpace;
  }

  /** Normalisation yields clean text and loses no visible character. */
  lemma NormalizeIsCleanAndFaithful(content: Text)
    ensures Clean(Normalize(content))
    ensures Ink(Normalize(content)) == Ink(content)
  {
    hide Clean;
    hide Collapsed;
    hide Ink;
    hide DropSpaces;
    hide DropTrailingSpaces;
    hide Collapse;
    hide UnifyLineEnds;
    var u := UnifyLineEnds(content);
    var c := Collapse(u);
    UnifyKeepsInk(content);
    CollapseKeepsInk(u);
    DropKeepsInk(c);
    DropTrailingKeepsInk(DropSpaces(c));
    CollapseCollapses(u);
    EndsOfCollapsed(c);
  }

  lemma {:induction false} CollapseFixesCollapsed(t: Text)
    requires Collapsed(t)
    ensures Collapse(t) == t
  {
    if t == [] {
    } else if IsSpace(t[0]) {
      assert DropSpaces(t) == t[1..] by {
        if |t| > 1 { assert !IsSpace(t[1]); }
      }
      CollapseFixesCollapsed(t[1..]);
    } else {
      CollapseFixesCollapsed(t[1..]);
    }
  }

  lemma {:induction false} UnifyFixes(t: Text)
    requires forall i :: 0 <= i < |t| ==> t[i] != 13
    ensures UnifyLineEnds(t) == t
  {
    if t != [] {
      UnifyFixes(t[1..]);
    }
  }

  /** Clean text is left alone, so normalising twice is normalising once. */
  lemma NormalizeFixesClean(t: Text)
    requires Clean(t)
    ensures Normalize(t) == t
  {
    forall i | 0 <= i < |t| ensures t[i] != 13 {
      assert IsSpace(13);
    }
    UnifyFixes(t);
    CollapseFixesCollapsed(t);
  }

  // ---------------------------------------------------------------- words and sentences

  /** The index of the first white space, or the length. */
  function WordEnd(t: Text): (i: nat)
    ensures i <= |t|
    ensures forall j :: 0 <= j < i ==> !IsSpace(t[j])
    ensures i < |t| ==> IsSpace(t[i])
  {
    if t == [] || IsSpace(t[0]) then 0 else 1 + WordEnd(t[1..])
  }

  /** The words between the runs of white space; white space at an end leaves an empty word there. */
  function Words(t: Text): (ws: seq<Text>)
    ensures ws != []
    decreases |t|
  {
    var i := WordEnd(t);
    if i == |t| then [t] else [t[..i]] + Words(DropSpaces(t[i..]))
  }

  /** The first white space after a sentence mark, or the length. */
  function SentenceEnd(t: Text, from: nat): (i: nat)
    requires from <= |t|
    ensures from <= i <= |t|
    ensures i < |t| ==> 0 < i && IsSpace(t[i]) && EndsSentence(t[i - 1])
    decreases |t| - from
  {
    if from == |t| then from
    else if from > 0 && IsSpace(t[from]) && EndsSentence(t[from - 1]) then from
    else SentenceEnd(t, from + 1)
  }

  /** The sentences: a text is cut at the white space behind a sentence mark, and empty pieces are dropped. */
  function SentenceUnits(t: Text): (units: seq<Text>)
    ensures forall u :: u in units ==> u != []
    decreases |t|
  {
    var i := SentenceEnd(t, 0);
    var head := if i == 0 then [] else [t[..i]];
    if i == |t| then head else head + SentenceUnits(DropSpaces(t[i..]))
  }

  /** The items with one space between two of them. */
  function Join(items: seq<Text>): Text {
    if |items| == 0 then []
    else if |items| == 1 then items[0]
    else items[0] + [SPACE] + Join(items[1..])
  }

  // ---------------------------------------------------------------- the two packing loops

  /** A word longer than the limit, cut every `limit` code units. */
  function Chunks(word: Text, limit: nat): (cs: seq<Text>)
    requires limit >= 1
    ensures word != [] ==> cs != []
  {
    if word == [] then []
    else if |word| <= limit then [word]
    else [word[..limit]] + Chunks(word[limit..], limit)
  }

  function Candidate(current: Text, item: Text): Text {
    if current == [] then item else current + [SPACE] + item
  }

  function Flush(current: Text): seq<Text> {
    if current == [] then [] else [current]
  }

  /** What the word loop still emits when `current` is the part being filled. */
  function Fill(words: seq<Text>, current: Text, limit: nat): seq<Text>
    requires limit >= 1
  {
    if words == [] then Flush(current)
    else if |words[0]| > limit then
      Flush(current) + Chunks(words[0], limit) + Fill(words[1..], [], limit)
    else if current != [] && |Candidate(current, words[0])| > limit then
      [current] + Fill(words[1..], words[0], limit)
    else
      Fill(words[1..], Candidate(current, words[0]), limit)
  }

  function SplitLong(value: Text, limit: nat): seq<Text>
    requires limit >= 1
  {
    if |value| <= limit then [value] else Fill(Words(value), [], limit)
  }

  function FlatSplit(units: seq<Text>, limit: nat): seq<Text>
    requires limit >= 1
  {
    if units == [] then [] else SplitLong(units[0], limit) + FlatSplit(units[1..], limit)
  }

  /** What the packing loop still emits when `current` is the part being filled. */
  function Pack(items: seq<Text>, current: Text, limit: nat): seq<Text> {
    if items == [] then Flush(current)
    else if current != [] && |Candidate(current, items[0])| > limit then
      [current] + Pack(items[1..], items[0], limit)
    else
      Pack(items[1..], Candidate(current, items[0]), limit)
  }

  /** The chunks of a word from `index` on. */
  function ChunksFrom(word: Text, index: nat, limit: nat): seq<Text>
    requires limit >= 1
  {
    Chunks(if index < |word| then word[index..] else [], limit)
  }

  lemma NextChunk(word: Text, index: nat, limit: nat)
    requires limit >= 1 && index < |word|
    ensures var upto := if index + limit <= |word| then index + limit else |word|;
            ChunksFrom(word, index, limit) == [word[index..upto]] + ChunksFrom(word, index + limit, limit)
  {
    var rest := word[index..];
    if index + limit < |word| {
      assert rest[..limit] == word[index..index + limit] && rest[limit..] == word[index + limit..];
    } else {
      assert rest == word[index..|word|];
    }
  }

  /** The inner loop of `splitLongUnit`. */
  method CutWord(word: Text, limit: nat) returns (chunks: seq<Text>)
    requires limit >= 1
    ensures chunks == Chunks(word, limit)
  {
    chunks := [];
    var index := 0;
    assert ChunksFrom(word, 0, limit) == Chunks(word, limit) by { assert word[0..] == word; }
    while index < |word|
      invariant 0 <= index && chunks + ChunksFrom(word, index, limit) == Chunks(word, limit)
    {
      hide ChunksFrom;
      hide Chunks;
      var upto := if index + limit <= |word| then index + limit else |word|;
      NextChunk(word, index, limit);
      Regroup(chunks, [word[index..upto]], [], ChunksFrom(word, index + limit, limit));
      chunks := chunks + [word[index..upto]];
      index := index + limit;
    }
  }

  method SplitLongUnit(value: Text, limit: nat) returns (parts: seq<Text>)
    requires limit >= 1
    ensures parts == SplitLong(value, limit)
  {
    if |value| <= limit {
      return [value];
    }
    var words := Words(value);
    parts := [];
    var current: Text := [];
    for w := 0 to |words|
      invariant parts + Fill(words[w..], current, limit) == Fill(words, [], limit)
    {
      var word := words[w];
      ghost var was := current;
      ghost var before := parts;
      ghost var rest := words[w + 1..];
      assert words[w..][1..] == rest;
      if |word| > limit {
        if current != [] {
          parts := parts + [current];
          current := [];
        }
        var chunks := CutWord(word, limit);
        parts := parts + chunks;
        Regroup(before, Flush(was), chunks, Fill(rest, [], limit));
      } else {
        var candidate := Candidate(current, word);
        if current != [] && |candidate| > limit {
          parts := parts + [current];
          current := word;
          assert before + ([was] + Fill(rest, word, limit)) == parts + Fill(rest, word, limit);
        } else {
          current := candidate;
        }
      }
    }
    if current != [] {
      parts := parts + [current];
    }
  }

  lemma Regroup<T>(a: seq<T>, b: seq<T>, c: seq<T>, d: seq<T>)
    ensures a + (b + c + d) == (a + b + c) + d
    ensures b == [] ==> a + b == a
  {
  }

  /** Every unit split to the limit, in order. */
  method SplitUnits(units: seq<Text>, limit: nat) returns (items: seq<Text>)
    requires limit >= 1
    ensures items == FlatSplit(units, limit)
  {
    items := [];
    for u := 0 to |units|
      invariant items + FlatSplit(units[u..], limit) == FlatSplit(units, limit)
    {
      var pieces := SplitLongUnit(units[u], limit);
      assert units[u..][1..] == units[u + 1..];
      Regroup(items, pieces, [], FlatSplit(units[u + 1..], limit));
      items := items + pieces;
    }
  }

  method PackUnits(units: seq<Text>, limit: nat) returns (parts: seq<Text>)
    requires limit >= 1
    ensures parts == Pack(FlatSplit(units, limit), [], limit)
  {
    var items := SplitUnits(units, limit);
    parts := [];
    var current: Text := [];
    for k := 0 to |items|
      invariant parts + Pack(items[k..], current, limit) == Pack(items, [], limit)
    {
      ghost var rest := items[k + 1..];
      assert items[k..][1..] == rest;
      var candidate := Candidate(current, items[k]);
      if current != [] && |candidate| > limit {
        assert parts + ([current] + Pack(rest, items[k], limit)) == (parts + [current]) + Pack(rest, items[k], limit);
        parts := parts + [current];
        current := items[k];
      } else {
        current := candidate;
      }
    }
    if current != [] {
      parts := parts + [current];
    }
  }

  // ---------------------------------------------------------------- the exported function

  datatype Outcome = Parts(parts: seq<Text>) | InvalidLimits | ExceedsLimits

  function Min(a: int, b: int): int { if a <= b then a else b }
  function Max(a: int, b: int): int { if a >= b then a else b }

  /** The limit of the first pass: room for `maxParts` equal parts, but no part above the maximum. */
  function Target(length: nat, splitThreshold: int, maxParts: int, maxPartChars: int): (target: nat)
    requires maxParts >= 1 && maxPartChars >= 1 && splitThreshold >= 1
    ensures 1 <= target <= maxPartChars
  {
    Min(maxPartChars, Max(splitThreshold, (length + maxParts - 1) / maxParts))
  }

  /** The parts before the final check: sentences packed to the target or, if that takes too many
      parts, words packed to the maximum. */
  function Draft(text: Text, splitThreshold: int, maxParts: int, maxPartChars: int): seq<Text>
    requires maxParts >= 1 && maxPartChars >= 1 && splitThreshold >= 1
  {
    var target := Target(|text|, splitThreshold, maxParts, maxPartChars);
    var packed := Pack(FlatSplit(SentenceUnits(text), target), [], target);
    if |packed| > maxParts then SplitLong(text, maxPartChars) else packed
  }

  function SplitMessage(content: Text, splitThreshold: int, maxParts: int, maxPartChars: int): Outcome {
    var text := Normalize(content);
    if text == [] then Parts([text])
    else if maxParts < 1 || maxPartChars < 1 || splitThreshold < 1 then InvalidLimits
    else if |text| <= splitThreshold && |text| <= maxPartChars then Parts([text])
    else
      var parts := Draft(text, splitThreshold, maxParts, maxPartChars);
      if |parts| > maxParts || exists p | p in parts :: |p| > maxPartChars then ExceedsLimits
      else Parts(parts)
  }

  const DEFAULT_SPLIT_THRESHOLD := 520
  const DEFAULT_MAX_PARTS := 9
  const DEFAULT_MAX_PART_CHARS := 1000

  method SplitWhatsAppMessage(content: Text, splitThreshold: int := DEFAULT_SPLIT_THRESHOLD,
        maxParts: int := DEFAULT_MAX_PARTS, maxPartChars: int := DEFAULT_MAX_PART_CHARS)
    returns (outcome: Outcome)
    ensures outcome == SplitMessage(content, splitThreshold, maxParts, maxPartChars)
  {
    var text := Normalize(content);
    if text == [] {
      return Parts([text]);
    }
    if maxParts < 1 || maxPartChars < 1 || splitThreshold < 1 {
      return InvalidLimits;
    }
    if |text| <= splitThreshold && |text| <= maxPartChars {
      return Parts([text]);
    }
    var target := Target(|text|, splitThreshold, maxParts, maxPartChars);
    var parts := PackUnits(SentenceUnits(text), target);
    if |parts| > maxParts {
      parts := SplitLongUnit(text, maxPartChars);
    }
    if |parts| > maxParts || exists p | p in parts :: |p| > maxPartChars {
      return ExceedsLimits;
    }
    return Parts(parts);
  }
}
