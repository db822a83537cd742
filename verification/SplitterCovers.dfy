/** How the parts of a split cover its text.

    A cover spells the text as part, separator, part, and so on. Words, sentences, chunks, filled
    parts and packed parts each cover what they were made of, so that the draft of a split covers the
    normalised text.

    What follows for the splitter as a whole is in `SplitterTheorems`. */
module SplitterCovers {
  import opened Splitter

  ghost predicate NoSpace(t: Text) {
    forall i :: 0 <= i < |t| ==> !IsSpace(t[i])
  }

  /** `text` is exactly part, separator, part, and so on. A separator is one space, or nothing when
      the part before it is `limit` unbroken code units whose word goes on: that is, only inside a
      word longer than `limit`. Every part is non-empty and at most `limit` long. */
  ghost predicate Covers(text: Text, parts: seq<Text>, limit: nat)
    decreases |parts|
  {
    && parts != []
    && 0 < |parts[0]| <= limit
    && parts[0] <= text
    && var n := |parts[0]|;
       if |parts| == 1 then text == parts[0]
       else
         && n < |text|
         && if text[n] == SPACE then Covers(text[n + 1..], parts[1..], limit)
            else n == limit && NoSpace(parts[0]) && !IsSpace(text[n]) && Covers(text[n..], parts[1..], limit)
  }

  lemma {:induction false} CoversBounds(text: Text, parts: seq<Text>, limit: nat)
    requires Covers(text, parts, limit)
    ensures forall p | p in parts :: 0 < |p| <= limit
  {
    if |parts| > 1 {
      var n := |parts[0]|;
      CoversBounds(if text[n] == SPACE then text[n + 1..] else text[n..], parts[1..], limit);
    }
  }

  /** One more part in front of a cover. */
  lemma CoversCons(p: Text, gap: Text, rest: Text, parts: seq<Text>, limit: nat)
    requires 0 < |p| <= limit && Covers(rest, parts, limit)
    requires gap == [SPACE] || (gap == [] && |p| == limit && NoSpace(p) && !IsSpace(rest[0]))
    ensures Covers(p + gap + rest, [p] + parts, limit)
  {
    var text := p + gap + rest;
    assert ([p] + parts)[1..] == parts;
    assert text[|p| + |gap|..] == rest;
    assert text[|p|] == if gap == [] then rest[0] else SPACE;
  }

  lemma CoversUncons(text: Text, parts: seq<Text>, limit: nat) returns (gap: Text, rest: Text)
    requires Covers(text, parts, limit) && |parts| > 1
    ensures text == parts[0] + gap + rest
    ensures Covers(rest, parts[1..], limit)
    ensures gap == [SPACE] || (gap == [] && |parts[0]| == limit && NoSpace(parts[0]) && !IsSpace(rest[0]))
  {
    var n := |parts[0]|;
    gap := if text[n] == SPACE then [SPACE] else [];
    rest := text[n + |gap|..];
  }

  lemma Reassociate(p: Text, gap: Text, rest: Text, b: Text)
    ensures p + gap + (rest + [SPACE] + b) == (p + gap + rest) + [SPACE] + b
  {
  }

  lemma {:induction false} CoversConcat(a: Text, pa: seq<Text>, b: Text, pb: seq<Text>, limit: nat)
    requires Covers(a, pa, limit) && Covers(b, pb, limit)
    ensures Covers(a + [SPACE] + b, pa + pb, limit)
  {
    var p := pa[0];
    assert pa == [p] + pa[1..];
    if |pa| == 1 {
      CoversCons(p, [SPACE], b, pb, limit);
    } else {
      var gap, rest := CoversUncons(a, pa, limit);
      CoversConcat(rest, pa[1..], b, pb, limit);
      CoversCons(p, gap, rest + [SPACE] + b, pa[1..] + pb, limit);
      assert p + gap + (rest + [SPACE] + b) == a + [SPACE] + b by { Reassociate(p, gap, rest, b); }
      assert [p] + (pa[1..] + pb) == pa + pb;
    }
  }

  // ---------------------------------------------------------------- words and sentences of clean text

  lemma CleanSuffix(t: Text, i: nat)
    requires Clean(t) && i < |t|
    ensures t[i] == SPACE ==> i + 1 < |t| && DropSpaces(t[i..]) == t[i + 1..] && Clean(t[i + 1..])
    ensures !IsSpace(t[i]) ==> Clean(t[i..])
    ensures t[i] == SPACE ==> t[..i] != [] && Clean(t[..i])
    ensures IsSpace(t[i]) ==> t[i] == SPACE
  {
    if t[i] == SPACE {
      assert !IsSpace(t[i + 1]);
      assert t[i..][1..] == t[i + 1..];
    }
  }

  lemma {:induction false} WordsOfClean(t: Text)
    requires Clean(t) && t != []
    ensures Join(Words(t)) == t
    ensures forall w | w in Words(t) :: w != [] && NoSpace(w)
    decreases |t|
  {
    var i := WordEnd(t);
    if i < |t| {
      CleanSuffix(t, i);
      WordsOfClean(t[i + 1..]);
      assert t == t[..i] + [SPACE] + t[i + 1..];
      assert ([t[..i]] + Words(t[i + 1..]))[1..] == Words(t[i + 1..]);
    }
  }

  lemma {:induction false} WordEndAfter(a: Text, t: Text)
    requires a <= t && (|a| < |t| ==> IsSpace(t[|a|]))
    ensures WordEnd(t) == WordEnd(a)
  {
    if a != [] && !IsSpace(a[0]) {
      WordEndAfter(a[1..], t[1..]);
    }
  }

  lemma WordsStep(t: Text, i: nat)
    requires Clean(t) && i == WordEnd(t) < |t|
    ensures Words(t) == [t[..i]] + Words(t[i + 1..])
  {
    CleanSuffix(t, i);
  }

  lemma WordsConcatOne(a: Text, b: Text)
    requires Clean(a + [SPACE] + b) && NoSpace(a)
    ensures Words(a + [SPACE] + b) == [a] + Words(b) && Words(a) == [a]
  {
    var t := a + [SPACE] + b;
    assert t[|a|] == SPACE;
    assert WordEnd(a) == |a|;
    WordEndAfter(a, t);
    WordsStep(t, |a|);
    assert t[..|a|] == a && t[|a| + 1..] == b;
  }

  lemma WordsConcatStep(head: Text, rest: Text, b: Text)
    requires NoSpace(head) && Clean(head + [SPACE] + rest) && Clean(head + [SPACE] + (rest + [SPACE] + b))
    requires Words(rest + [SPACE] + b) == Words(rest) + Words(b)
    ensures Words(head + [SPACE] + (rest + [SPACE] + b)) == Words(head + [SPACE] + rest) + Words(b)
  {
    hide Words;
    WordsConcatOne(head, rest);
    WordsConcatOne(head, rest + [SPACE] + b);
    assert [head] + (Words(rest) + Words(b)) == ([head] + Words(rest)) + Words(b);
  }

  lemma {:induction false} WordsConcat(a: Text, b: Text)
    requires Clean(a + [SPACE] + b)
    ensures Words(a + [SPACE] + b) == Words(a) + Words(b)
    decreases |a|
  {
    var i := WordEnd(a);
    if i == |a| {
      WordsConcatOne(a, b);
    } else {
      var head, rest := a[..i], a[i + 1..];
      CleanParts(a, b, i);
      WordsConcat(rest, b);
      assert a + [SPACE] + b == head + [SPACE] + (rest + [SPACE] + b) by { Reassociate(head, [SPACE], rest, b); }
      WordsConcatStep(head, rest, b);
    }
  }

  lemma CleanParts(a: Text, b: Text, i: nat)
    requires Clean(a + [SPACE] + b) && i < |a| && IsSpace(a[i])
    ensures a == a[..i] + [SPACE] + a[i + 1..] && Clean(a) && Clean(a[i + 1..] + [SPACE] + b)
  {
    var t := a + [SPACE] + b;
    assert t[|a|] == SPACE && a == t[..|a|];
    CleanSuffix(t, |a|);
    assert t[i] == a[i];
    CleanSuffix(t, i);
    assert t[i + 1..] == a[i + 1..] + [SPACE] + b;
  }

  ghost predicate EndsMarked(u: Text) {
    u != [] && EndsSentence(u[|u| - 1])
  }

  /** The sentences of a clean text, joined by spaces, are the text; each is clean, and each but
      the last ends with a sentence mark. */
  lemma {:induction false} SentencesOfClean(t: Text)
    requires Clean(t) && t != []
    ensures SentenceUnits(t) != [] && Join(SentenceUnits(t)) == t
    ensures forall u | u in SentenceUnits(t) :: Clean(u) && u != []
    ensures forall k | 0 <= k < |SentenceUnits(t)| - 1 :: EndsMarked(SentenceUnits(t)[k])
    decreases |t|
  {
    var i := SentenceEnd(t, 0);
    if i == |t| {
      assert t[..i] == t;
      assert SentenceUnits(t) == [t];
    } else {
      CleanSuffix(t, i);
      var rest := t[i + 1..];
      SentencesOfClean(rest);
      SentencesCons(t[..i], SentenceUnits(rest));
      assert t == t[..i] + [SPACE] + rest;
      assert SentenceUnits(t) == [t[..i]] + SentenceUnits(rest);
    }
  }

  lemma SentencesCons(u: Text, us: seq<Text>)
    requires us != [] && EndsMarked(u) && Clean(u)
    requires forall v | v in us :: Clean(v) && v != []
    requires forall k | 0 <= k < |us| - 1 :: EndsMarked(us[k])
    ensures var all := [u] + us;
            && Join(all) == u + [SPACE] + Join(us)
            && (forall v | v in all :: Clean(v) && v != [])
            && (forall k | 0 <= k < |all| - 1 :: EndsMarked(all[k]))
  {
    assert ([u] + us)[1..] == us;
  }

  // ---------------------------------------------------------------- content is preserved

  lemma {:induction false} ChunksCover(word: Text, limit: nat)
    requires limit >= 1 && word != [] && NoSpace(word)
    ensures Covers(word, Chunks(word, limit), limit)
  {
    if |word| > limit {
      ChunksCover(word[limit..], limit);
      assert Chunks(word, limit)[1..] == Chunks(word[limit..], limit);
    }
  }

  ghost function Pending(current: Text, items: seq<Text>): Text {
    if items == [] then current else Candidate(current, Join(items))
  }

  lemma FlushCovers(current: Text, text: Text, parts: seq<Text>, limit: nat)
    requires |current| <= limit && Covers(text, parts, limit)
    ensures Covers(Candidate(current, text), Flush(current) + parts, limit)
  {
    if current == [] {
      assert Flush(current) + parts == parts;
    } else {
      CoversCons(current, [SPACE], text, parts, limit);
    }
  }

  lemma PendingCons(current: Text, word: Text, rest: seq<Text>)
    requires word != []
    ensures Pending(current, [word] + rest) == Pending(Candidate(current, word), rest)
    ensures Pending(current, [word] + rest) == Candidate(current, Pending(word, rest))
    ensures rest != [] ==> Pending(current, [word] + rest) == Candidate(current, word) + [SPACE] + Join(rest)
  {
    assert ([word] + rest)[1..] == rest;
  }

  lemma {:induction false} FillCovers(words: seq<Text>, current: Text, limit: nat)
    requires limit >= 1
    requires forall w | w in words :: w != [] && NoSpace(w)
    requires |current| <= limit
    requires words != [] || current != []
    ensures Covers(Pending(current, words), Fill(words, current, limit), limit)
  {
    if words != [] {
      var word, rest := words[0], words[1..];
      assert word in words && forall w | w in rest :: w in words;
      assert words == [word] + rest;
      PendingCons(current, word, rest);
      if |word| > limit {
        ChunksCover(word, limit);
        FlushCovers(current, word, Chunks(word, limit), limit);
        var head, tail := Flush(current) + Chunks(word, limit), Fill(rest, [], limit);
        assert Fill(words, current, limit) == head + tail;
        if rest == [] {
          assert head + tail == head;
        } else {
          FillCovers(rest, [], limit);
          assert Pending([], rest) == Join(rest);
          CoversConcat(Candidate(current, word), head, Join(rest), tail, limit);
        }
      } else if current != [] && |Candidate(current, word)| > limit {
        FillCovers(rest, word, limit);
        FlushCovers(current, Pending(word, rest), Fill(rest, word, limit), limit);
      } else {
        FillCovers(rest, Candidate(current, word), limit);
      }
    }
  }

  lemma SplitLongCovers(value: Text, limit: nat)
    requires limit >= 1 && Clean(value) && value != []
    ensures Covers(value, SplitLong(value, limit), limit)
  {
    if |value| > limit {
      WordsOfClean(value);
      FillCovers(Words(value), [], limit);
    }
  }

  lemma {:induction false} FlatSplitCovers(units: seq<Text>, limit: nat)
    requires limit >= 1 && units != []
    requires forall u | u in units :: Clean(u) && u != []
    ensures Covers(Join(units), FlatSplit(units, limit), limit)
  {
    SplitLongCovers(units[0], limit);
    if |units| == 1 {
      assert FlatSplit(units, limit) == SplitLong(units[0], limit);
    } else {
      FlatSplitCovers(units[1..], limit);
      CoversConcat(units[0], SplitLong(units[0], limit), Join(units[1..]), FlatSplit(units[1..], limit), limit);
    }
  }

  /** Re-joining pieces with spaces is sound: a piece cut inside a word is exactly `limit` long, so
      nothing is ever joined to its right. */
  lemma CoversOne(text: Text, p: Text, limit: nat)
    ensures Covers(text, [p], limit) <==> text == p && 0 < |p| <= limit
  {
  }

  lemma RejoinCovers(text: Text, current: Text, item: Text, rest: seq<Text>, limit: nat)
    requires Covers(text, [current, item] + rest, limit) && |current| + 1 + |item| <= limit
    ensures Covers(text, [current + [SPACE] + item] + rest, limit)
  {
    hide Covers;
    var parts, joined := [current, item] + rest, current + [SPACE] + item;
    assert parts[1..] == [item] + rest;
    CoversBounds(text, parts, limit);
    assert current in parts && item in parts;
    var gap, tail := CoversUncons(text, parts, limit);
    assert text == current + [SPACE] + tail;
    if rest == [] {
      assert [item] + rest == [item] && [joined] + rest == [joined];
      CoversOne(tail, item, limit);
      CoversOne(text, joined, limit);
    } else {
      assert ([item] + rest)[1..] == rest;
      var gap2, tail2 := CoversUncons(tail, [item] + rest, limit);
      assert tail == item + [SPACE] + tail2;
      CoversCons(joined, [SPACE], tail2, rest, limit);
      Reassociate(current, [SPACE], item, tail2);
    }
  }

  lemma {:induction false} PackCovers(text: Text, items: seq<Text>, current: Text, limit: nat)
    requires Covers(text, Flush(current) + items, limit)
    ensures Covers(text, Pack(items, current, limit), limit)
    decreases |items|
  {
    hide Covers;
    if items == [] {
      assert Flush(current) + items == Flush(current);
    } else {
      var item, rest := items[0], items[1..];
      var all := Flush(current) + items;
      CoversBounds(text, all, limit);
      assert item == all[|Flush(current)|] && item in all;
      assert items == Flush(item) + rest;
      if current == [] {
        assert all == items;
        PackCovers(text, rest, item, limit);
      } else {
        assert all == [current, item] + rest && all[1..] == items;
        if |Candidate(current, item)| > limit {
          var gap, tail := CoversUncons(text, all, limit);
          PackCovers(tail, rest, item, limit);
          CoversBounds(tail, Pack(rest, item, limit), limit);
          CoversCons(current, gap, tail, Pack(rest, item, limit), limit);
        } else {
          RejoinCovers(text, current, item, rest, limit);
          PackCovers(text, rest, Candidate(current, item), limit);
        }
      }
    }
  }

  /** The limit that cut the parts: the target of the first pass, or the maximum of the second. */
  ghost function LimitInForce(text: Text, splitThreshold: int, maxParts: int, maxPartChars: int): nat
    requires maxParts >= 1 && maxPartChars >= 1 && splitThreshold >= 1
  {
    var target := Target(|text|, splitThreshold, maxParts, maxPartChars);
    if |Pack(FlatSplit(SentenceUnits(text), target), [], target)| > maxParts then maxPartChars else target
  }

  lemma DraftCovers(text: Text, splitThreshold: int, maxParts: int, maxPartChars: int)
    requires maxParts >= 1 && maxPartChars >= 1 && splitThreshold >= 1
    requires Clean(text) && text != []
    ensures Covers(text, Draft(text, splitThreshold, maxParts, maxPartChars),
                   LimitInForce(text, splitThreshold, maxParts, maxPartChars))
  {
    var target := Target(|text|, splitThreshold, maxParts, maxPartChars);
    var units := SentenceUnits(text);
    SentencesOfClean(text);
    FlatSplitCovers(units, target);
    assert Flush([]) + FlatSplit(units, target) == FlatSplit(units, target);
    PackCovers(text, FlatSplit(units, target), [], target);
    SplitLongCovers(text, maxPartChars);
  }
}
