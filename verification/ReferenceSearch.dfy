/** Finding a reference again in the message that it was appended to.

    A message may hold other text before the label and after the reference, and even other references;
    what the search extracts is told for every such message.

    A reference stands as a word of its own: nothing that a word may consist of is next to it. */
module ReferenceSearch {
  import opened Options
  import opened Int32Operators
  import opened References

  const LENGTH := 3 + SYMBOLS

  predicate IsSymbol(c: char) {
    'A' <= c <= 'Z' || '2' <= c <= '7'
  }

  /** The characters of words, in the sense of patterns. */
  predicate IsWord(c: char) {
    'A' <= c <= 'Z' || 'a' <= c <= 'z' || '0' <= c <= '9' || c == '_'
  }

  /** A word begins or ends here. */
  predicate IsBoundary(text: string, i: nat)
    requires i <= |text|
  {
    (i > 0 && IsWord(text[i - 1])) != (i < |text| && IsWord(text[i]))
  }

  /** A reference stands here, as a word of its own. */
  predicate MatchesAt(text: string, i: nat) {
    && i + LENGTH <= |text| && IsBoundary(text, i) && text[i..i + 3] == "UC-"
    && (forall k :: i + 3 <= k < i + LENGTH ==> IsSymbol(text[k]))
    && IsBoundary(text, i + LENGTH)
  }

  /** The first match at or after `i`. */
  function FindFrom(text: string, i: nat): (r: Option<nat>)
    ensures r.Some? ==> i <= r.value && MatchesAt(text, r.value) && forall k :: i <= k < r.value ==> !MatchesAt(text, k)
    ensures r.None? ==> forall k: nat :: i <= k ==> !MatchesAt(text, k)
    decreases |text| - i
  {
    if i >= |text| then None else if MatchesAt(text, i) then Some(i) else FindFrom(text, i + 1)
  }

  function ExtractReference(message: string): Option<string> {
    var found := FindFrom(message, 0);
    if found.Some? then Some(message[found.value..found.value + LENGTH]) else None
  }

  lemma ReferenceIsWellFormed(bytes: seq<Byte>)
    requires |bytes| == BYTES
    ensures var r := Reference(bytes);
            |r| == LENGTH && r[..3] == "UC-" && forall k :: 3 <= k < LENGTH ==> IsSymbol(r[k])
  {
    EncodingIsLongEnough(bytes);
    var r := Reference(bytes);
    forall k | 3 <= k < LENGTH ensures IsSymbol(r[k]) {
      SymbolAt(Bits(bytes), k - 3);
      var group := Bits(bytes)[5 * (k - 3)..5 * (k - 3) + 5];
      ValueFits(group);
      assert Pow2(5) == 32 by { SmallPowers(); }
      AlphabetIsSymbols(Value(group));
    }
  }

  lemma AlphabetIsSymbols(v: nat)
    requires v < 32
    ensures IsSymbol(ALPHABET[v])
  {
    assert forall k :: 0 <= k < 26 ==> ALPHABET[k] as int == 'A' as int + k;
    assert forall k :: 26 <= k < 32 ==> ALPHABET[k] as int == '2' as int + k - 26;
  }

  const LABEL := "Referencia: "

  /** What follows the reference goes on with its last word: by a letter of ASCII, a digit or an underscore. */
  predicate RunsOn(after: string) {
    after != "" && var code := after[0] as int;
                   48 <= code <= 57 || 65 <= code <= 90 || code == 95 || 97 <= code <= 122
  }

  predicate EndsInWord(text: string) {
    text != "" && IsWord(text[|text| - 1])
  }

  predicate IsReference(r: string) {
    |r| == LENGTH && r[..3] == "UC-" && forall k :: 3 <= k < LENGTH ==> IsSymbol(r[k])
  }

  lemma SameInFront(a: string, b: string, k: nat)
    requires k + LENGTH < |a| && k + LENGTH < |b| && a[..k + LENGTH + 1] == b[..k + LENGTH + 1]
    ensures MatchesAt(a, k) <==> MatchesAt(b, k)
    ensures a[k..k + LENGTH] == b[k..k + LENGTH]
  {
    assert forall i :: 0 <= i <= k + LENGTH ==> a[i] == a[..k + LENGTH + 1][i] == b[i];
    assert a[k..k + 3] == b[k..k + 3];
  }

  /** What stands before the label and in it is found or not, whatever follows. */
  lemma EarlierMatches(before: string, rest: string, k: nat)
    requires k < |before + LABEL|
    ensures MatchesAt(before + LABEL + rest, k) <==> MatchesAt(before + LABEL, k)
    ensures MatchesAt(before + LABEL, k) ==>
              (before + LABEL + rest)[k..k + LENGTH] == (before + LABEL)[k..k + LENGTH]
  {
    var front, message := before + LABEL, before + LABEL + rest;
    assert front[|before|..|before| + |LABEL|] == LABEL == message[|before|..|before| + |LABEL|];
    if MatchesAt(message, k) || MatchesAt(front, k) {
      if MatchesAt(message, k) {
        LabelHoldsNoReference(message, |before|, k);
      } else {
        LabelHoldsNoReference(front, |before|, k);
      }
      assert message[..k + LENGTH + 1] == front[..k + LENGTH + 1];
      SameInFront(message, front, k);
    }
  }

  /** Of what stands before a text only its last character matters. */
  lemma LaterMatches(p: string, q: string, text: string, k: nat)
    requires EndsInWord(p) == EndsInWord(q)
    ensures MatchesAt(p + text, |p| + k) <==> MatchesAt(q + text, |q| + k)
    ensures MatchesAt(p + text, |p| + k) ==>
              (p + text)[|p| + k..|p| + k + LENGTH] == (q + text)[|q| + k..|q| + k + LENGTH]
  {
    if k + LENGTH <= |text| {
      var a, b := p + text, q + text;
      assert forall i :: 0 <= i < |text| ==> a[|p| + i] == text[i] == b[|q| + i];
      assert a[|p| + k..|p| + k + 3] == text[k..k + 3] == b[|q| + k..|q| + k + 3];
      assert a[|p| + k..|p| + k + LENGTH] == text[k..k + LENGTH] == b[|q| + k..|q| + k + LENGTH];
      SameBoundary(p, q, text, k);
      SameBoundary(p, q, text, k + LENGTH);
    }
  }

  lemma SameBoundary(p: string, q: string, text: string, i: nat)
    requires EndsInWord(p) == EndsInWord(q) && i <= |text|
    ensures IsBoundary(p + text, |p| + i) <==> IsBoundary(q + text, |q| + i)
  {
    if i > 0 {
      assert (p + text)[|p| + i - 1] == text[i - 1] == (q + text)[|q| + i - 1];
    }
  }

  lemma FirstMatch(message: string, k: nat)
    requires MatchesAt(message, k) && forall j: nat :: j < k ==> !MatchesAt(message, j)
    ensures ExtractReference(message) == Some(message[k..k + LENGTH])
  {
    var found := FindFrom(message, 0);
    assert found.Some? && found.value == k;
  }

  lemma NoMatch(message: string)
    requires forall k: nat :: !MatchesAt(message, k)
    ensures ExtractReference(message) == None
  {
  }

  /** A search that finds nothing in front finds what follows. */
  lemma ExtractBehind(p: string, q: string, text: string)
    requires EndsInWord(p) == EndsInWord(q)
    requires forall k: nat :: k < |p| ==> !MatchesAt(p + text, k)
    requires forall k: nat :: k < |q| ==> !MatchesAt(q + text, k)
    ensures ExtractReference(p + text) == ExtractReference(q + text)
  {
    hide MatchesAt;
    var found := FindFrom(q + text, 0);
    if found.Some? {
      var k := found.value - |q|;
      LaterMatches(p, q, text, k);
      forall i: nat | i < |p| + k ensures !MatchesAt(p + text, i) {
        if i >= |p| {
          LaterMatches(p, q, text, i - |p|);
        }
      }
      FirstMatch(p + text, |p| + k);
    } else {
      forall i: nat ensures !MatchesAt(p + text, i) {
        if i >= |p| {
          LaterMatches(p, q, text, i - |p|);
        }
      }
      NoMatch(p + text);
    }
  }

  /** What is extracted from a labelled message: what stands before the label, or else what follows it. */
  lemma ExtractInTwo(before: string, rest: string)
    ensures ExtractReference(before + LABEL + rest)
         == if ExtractReference(before + LABEL).Some? then ExtractReference(before + LABEL) else ExtractReference(rest)
  {
    var front := before + LABEL;
    assert !EndsInWord(front) by { assert front[|front| - 1] == LABEL[|LABEL| - 1] == ' '; }
    hide MatchesAt;
    var early := FindFrom(front, 0);
    forall k: nat | k < |front| ensures MatchesAt(front + rest, k) <==> MatchesAt(front, k) {
      EarlierMatches(before, rest, k);
    }
    if early.Some? {
      InFront(front, early.value);
      EarlierMatches(before, rest, early.value);
      FirstMatch(front + rest, early.value);
    } else {
      assert "" + rest == rest;
      ExtractBehind(front, "", rest);
    }
  }

  lemma InFront(text: string, k: nat)
    requires MatchesAt(text, k)
    ensures k < |text|
  {
  }

  lemma ReferenceLetters(r: string, after: string)
    requires IsReference(r)
    ensures (r + after)[0] == 'U' && (r + after)[1] == 'C' && (r + after)[2] == '-'
    ensures forall k :: 3 <= k < LENGTH ==> IsSymbol((r + after)[k])
  {
    assert r[0] == r[..3][0] && r[1] == r[..3][1] && r[2] == r[..3][2];
  }

  lemma MatchLetters(text: string, k: nat)
    ensures MatchesAt(text, k) ==> text[k] == 'U' && text[k + 1] == 'C' && text[k + 2] == '-'
  {
    if k + LENGTH <= |text| {
      assert text[k] == text[k..k + 3][0] && text[k + 1] == text[k..k + 3][1] && text[k + 2] == text[k..k + 3][2];
    }
  }

  /** No other match begins inside a reference. */
  lemma NothingInside(r: string, after: string, k: nat)
    requires IsReference(r) && 0 < k < LENGTH
    ensures !MatchesAt(r + after, k)
  {
    ReferenceLetters(r, after);
    MatchLetters(r + after, k);
    if k > 3 {
      assert IsSymbol((r + after)[k - 1]) && IsSymbol((r + after)[k]);
    } else if k == 3 {
      assert IsSymbol((r + after)[5]);
    }
  }

  /** A reference is extracted from the text that it begins, unless that runs on. */
  lemma ReferenceInFront(r: string, after: string)
    requires IsReference(r)
    ensures ExtractReference(r + after) == if RunsOn(after) then ExtractReference("X" + after) else Some(r)
  {
    var text := r + after;
    ReferenceLetters(r, after);
    assert text[..3] == r[..3] && text[0..3] == text[..3];
    if !RunsOn(after) {
      assert MatchesAt(text, 0);
      FirstMatch(text, 0);
      assert text[0..LENGTH] == r;
    } else {
      assert text[LENGTH] == after[0] && !MatchesAt(text, 0);
      forall k: nat | k < LENGTH ensures !MatchesAt(text, k) {
        if k > 0 {
          NothingInside(r, after, k);
        }
      }
      MatchLetters("X" + after, 0);
      ExtractBehind(r, "X", after);
    }
  }

  /** Exactly when the reference is extracted from the message that it is appended to: what is extracted
      before it is the same, or nothing is and the text does not run on; or it does, and what is then
      extracted after it happens to be the same. */
  lemma ReferenceIsFoundAgainIff(bytes: seq<Byte>, before: string, after: string)
    requires |bytes| == BYTES
    ensures ExtractReference(before + LABEL + Reference(bytes) + after) == Some(Reference(bytes))
       <==> match ExtractReference(before + LABEL)
            case Some(found) => found == Reference(bytes)
            case None => !RunsOn(after) || ExtractReference("X" + after) == Some(Reference(bytes))
  {
    var r := Reference(bytes);
    ReferenceIsWellFormed(bytes);
    hide Reference;
    assert before + LABEL + r + after == before + LABEL + (r + after);
    ExtractInTwo(before, r + after);
    ReferenceInFront(r, after);
  }

  /** The reference is found again in the message it is appended to, whatever stands before it as long
      as that holds no reference itself, and whatever follows as long as that does not run on as a
      word. */
  lemma ReferenceIsFoundAgain(bytes: seq<Byte>, before: string, after: string)
    requires |bytes| == BYTES
    requires ExtractReference(before) == None && !RunsOn(after)
    ensures ExtractReference(before + LABEL + Reference(bytes) + after) == Some(Reference(bytes))
  {
    ReferenceIsFoundAgainIff(bytes, before, after);
    hide Reference;
    forall k: nat ensures !MatchesAt(before + LABEL, k) {
      if MatchesAt(before + LABEL, k) {
        assert (before + LABEL)[|before|..|before| + |LABEL|] == LABEL;
        LabelHoldsNoReference(before + LABEL, |before|, k);
        assert before[..k + LENGTH + 1] == (before + LABEL)[..k + LENGTH + 1];
        SameInFront(before, before + LABEL, k);
      }
    }
  }

  /** A match cannot reach into the label: its second letter is not a symbol, and its first would
      continue the word. */
  lemma LabelHoldsNoReference(message: string, p: nat, k: nat)
    requires MatchesAt(message, k) && p + |LABEL| <= |message| && message[p..p + |LABEL|] == LABEL && k < p + |LABEL|
    ensures k + LENGTH < p
  {
    LabelLetters(message, p);
    assert message[k] == message[k..k + 3][0] == 'U';
    assert message[k + 1] == message[k..k + 3][1] == 'C';
    assert message[k + 2] == message[k..k + 3][2] == '-';
    assert !(k <= p + 1 < k + LENGTH);
    assert IsSymbol(message[k + LENGTH - 1]);
  }

  lemma LabelLetters(message: string, p: nat)
    requires p + |LABEL| <= |message| && message[p..p + |LABEL|] == LABEL
    ensures message[p] == 'R' && message[p + 1] == 'e'
    ensures forall i :: p <= i < p + |LABEL| ==> message[i] != 'U'
  {
    assert message[p..p + |LABEL|][0] == 'R' && message[p..p + |LABEL|][1] == 'e';
    assert 'U' !in LABEL;
    forall i | p <= i < p + |LABEL| ensures message[i] != 'U' {
      assert message[i] == message[p..p + |LABEL|][i - p];
    }
  }
}
