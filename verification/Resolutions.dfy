/** Which pending questions of a customer a reply settles: a reply is cut into physical parts that are
    delivered one by one, and a question is settled only by a clause that has arrived whole. */
module Resolutions {
  import opened Options

  datatype Question = Price | Timeline | Other(id: nat)

  /** The pending questions a clause of the reply settles, as the commercial policy classifies it. */
  type Policy = (string, Question) -> bool

  datatype Proof = Proof(partIndexes: seq<nat>, questions: seq<Question>)

  // ---------------------------------------------------------------- clauses and parts of one text

  function JoinParts(parts: seq<string>): string {
    if parts == [] then ""
    else if |parts| == 1 then parts[0]
    else parts[0] + " " + JoinParts(parts[1..])
  }

  predicate OccursAt(text: string, clause: string, i: nat) {
    i + |clause| <= |text| && text[i..i + |clause|] == clause
  }

  /** `indexOf`: the first occurrence at or after `from`, or -1. */
  function IndexOf(text: string, clause: string, from: nat): (r: int)
    ensures r == -1 || (from <= r && OccursAt(text, clause, r))
    ensures forall i: nat :: from <= i && OccursAt(text, clause, i) ==> r != -1 && r <= i
    decreases |text| - from
  {
    if OccursAt(text, clause, from) then from
    else if from >= |text| then -1
    else IndexOf(text, clause, from + 1)
  }

  function PartStart(parts: seq<string>, i: nat): nat
    requires i <= |parts|
  {
    if i == 0 then 0 else PartStart(parts, i - 1) + |parts[i - 1]| + 1
  }

  predicate Overlaps(parts: seq<string>, i: nat, start: int, end: int)
    requires i < |parts|
  {
    PartStart(parts, i) < end && PartStart(parts, i) + |parts[i]| > start
  }

  /** The parts, in order, that overlap `[start, end)`. */
  function Overlapping(parts: seq<string>, start: int, end: int, n: nat): (r: seq<nat>)
    requires n <= |parts|
    ensures forall i: nat :: i in r <==> i < n && Overlaps(parts, i, start, end)
    ensures forall k :: 0 <= k < |r| ==> r[k] < n
    ensures forall i, j :: 0 <= i < j < |r| ==> r[i] < r[j]
  {
    if n == 0 then []
    else Overlapping(parts, start, end, n - 1) + if Overlaps(parts, n - 1, start, end) then [n - 1] else []
  }

  function Settled(policy: Policy, clause: string, pending: seq<Question>): (r: seq<Question>)
    ensures forall q :: q in r <==> q in pending && policy(clause, q)
  {
    if pending == [] then []
    else (if policy(clause, pending[0]) then [pending[0]] else []) + Settled(policy, clause, pending[1..])
  }

  function ProofOf(parts: seq<string>, clause: string, start: int, policy: Policy, pending: seq<Question>): seq<Proof> {
    var questions := Settled(policy, clause, pending);
    var indexes := Overlapping(parts, start, start + |clause|, |parts|);
    if questions != [] && indexes != [] then [Proof(indexes, questions)] else []
  }

  predicate NoneEmpty(texts: seq<string>) {
    forall i :: 0 <= i < |texts| ==> texts[i] != ""
  }

  /** Clause by clause, each searched from the end of the one before. */
  function SpansFrom(parts: seq<string>, clauses: seq<string>, offset: nat, policy: Policy,
        pending: seq<Question>): seq<Proof>
    requires NoneEmpty(clauses)
    decreases |clauses|
  {
    if clauses == [] then []
    else
      var start := IndexOf(JoinParts(parts), clauses[0], offset);
      ProofOf(parts, clauses[0], start, policy, pending)
      + SpansFrom(parts, clauses[1..], start + |clauses[0]|, policy, pending)
  }

  /** Where a part stands in the text. */
  datatype Boundary = Boundary(start: int, end: int)

  predicate BoundariesOf(parts: seq<string>, boundaries: seq<Boundary>, n: nat)
    requires n <= |parts|
  {
    |boundaries| == n
    && forall k {:trigger boundaries[k]} :: 0 <= k < n ==>
          boundaries[k] == Boundary(PartStart(parts, k), PartStart(parts, k) + |parts[k]|)
  }

  method Boundaries(parts: seq<string>) returns (boundaries: seq<Boundary>)
    ensures BoundariesOf(parts, boundaries, |parts|)
  {
    boundaries := [];
    var offset := 0;
    var i := 0;
    while i < |parts|
      invariant i <= |parts| && offset == PartStart(parts, i)
      invariant BoundariesOf(parts, boundaries, i)
    {
      var start := offset;
      offset := offset + |parts[i]| + 1;
      boundaries := boundaries + [Boundary(start, offset - 1)];
      i := i + 1;
    }
  }

  method PartsWithin(parts: seq<string>, boundaries: seq<Boundary>, start: int, end: int) returns (indexes: seq<nat>)
    requires BoundariesOf(parts, boundaries, |parts|)
    ensures indexes == Overlapping(parts, start, end, |parts|)
  {
    indexes := [];
    var p := 0;
    while p < |boundaries|
      invariant p <= |boundaries| && indexes == Overlapping(parts, start, end, p)
    {
      if boundaries[p].start < end && boundaries[p].end > start {
        indexes := indexes + [p];
      }
      p := p + 1;
    }
  }

  method Examine(parts: seq<string>, boundaries: seq<Boundary>, clause: string, start: int,
        policy: Policy, pending: seq<Question>)
    returns (found: seq<Proof>)
    requires BoundariesOf(parts, boundaries, |parts|)
    ensures found == ProofOf(parts, clause, start, policy, pending)
  {
    hide Overlapping;
    hide Settled;
    var questions := Settled(policy, clause, pending);
    var indexes := PartsWithin(parts, boundaries, start, start + |clause|);
    found := if questions != [] && indexes != [] then [Proof(indexes, questions)] else [];
  }

  lemma Regroup(a: seq<Proof>, b: seq<Proof>, c: seq<Proof>)
    ensures (a + b) + c == a + (b + c)
  {
  }

  method CommercialResolutionSpans(parts: seq<string>, clauses: seq<string>, policy: Policy, pending: seq<Question>)
    returns (proofs: seq<Proof>)
    requires NoneEmpty(clauses)
    ensures proofs == SpansFrom(parts, clauses, 0, policy, pending)
  {
    hide BoundariesOf;
    hide JoinParts;
    hide IndexOf;
    hide ProofOf;
    hide NoneEmpty;
    var text := JoinParts(parts);
    var boundaries := Boundaries(parts);
    var offset: nat := 0;
    proofs := [];
    var left := clauses;
    hide SpansFrom;
    while left != []
      invariant NoneEmpty(left)
      invariant proofs + SpansFrom(parts, left, offset, policy, pending)
                == SpansFrom(parts, clauses, 0, policy, pending)
      decreases |left|
    {
      var clause := left[0];
      var start := IndexOf(text, clause, offset);
      var end := start + |clause|;
      FirstSpan(parts, left, offset, policy, pending);
      offset := end;
      var found := Examine(parts, boundaries, clause, start, policy, pending);
      Regroup(proofs, found, SpansFrom(parts, left[1..], offset, policy, pending));
      proofs := proofs + found;
      left := left[1..];
    }
    NoSpans(parts, offset, policy, pending);
  }

  lemma FirstSpan(parts: seq<string>, clauses: seq<string>, offset: nat, policy: Policy, pending: seq<Question>)
    requires clauses != [] && NoneEmpty(clauses)
    ensures var start := IndexOf(JoinParts(parts), clauses[0], offset);
            start + |clauses[0]| >= 0 && NoneEmpty(clauses[1..]) &&
            SpansFrom(parts, clauses, offset, policy, pending)
            == ProofOf(parts, clauses[0], start, policy, pending)
               + SpansFrom(parts, clauses[1..], start + |clauses[0]|, policy, pending)
  {
    hide ProofOf;
  }

  lemma NoSpans(parts: seq<string>, offset: nat, policy: Policy, pending: seq<Question>)
    ensures SpansFrom(parts, [], offset, policy, pending) == []
  {
  }

  // ---------------------------------------------------------------- every clause is found where it stands

  /** The clauses of a text with what separates them. */
  function Layout(gaps: seq<string>, clauses: seq<string>): string
    requires |gaps| == |clauses| + 1
  {
    if clauses == [] then gaps[0] else gaps[0] + clauses[0] + Layout(gaps[1..], clauses[1..])
  }

  function StartOf(gaps: seq<string>, clauses: seq<string>, k: nat): nat
    requires |gaps| == |clauses| + 1 && k < |clauses|
    decreases k
  {
    if k == 0 then |gaps[0]| else |gaps[0]| + |clauses[0]| + StartOf(gaps[1..], clauses[1..], k - 1)
  }

  /** Reading on from a separator, the clause does not occur before the place where it stands. */
  predicate FirstThere(gap: string, clause: string) {
    forall j :: 0 <= j < |gap| ==> !OccursAt(gap + clause, clause, j)
  }

  predicate AllFirst(gaps: seq<string>, clauses: seq<string>)
    requires |gaps| == |clauses| + 1
  {
    forall k :: 0 <= k < |clauses| ==> FirstThere(gaps[k], clauses[k])
  }

  lemma SliceOfRest(text: string, from: nat, lo: nat, hi: nat)
    requires lo <= hi && from + hi <= |text|
    ensures text[from + lo..from + hi] == text[from..][lo..hi]
  {
  }

  lemma SameInContext(text: string, gap: string, clause: string, rest: string, from: nat, j: nat)
    requires from <= |text| && text[from..] == gap + clause + rest && j <= |gap|
    ensures OccursAt(text, clause, from + j) <==> OccursAt(gap + clause, clause, j)
  {
    var near := gap + clause;
    assert |text| - from == |near| + |rest|;
    SliceOfRest(text, from, j, j + |clause|);
    assert (near + rest)[j..j + |clause|] == near[j..j + |clause|];
  }

  /** The search finds a clause where it stands if and only if the clause does not occur earlier, from
      its separator on. */
  lemma FoundWhereItStandsIff(text: string, gap: string, clause: string, rest: string, from: nat)
    requires from <= |text| && text[from..] == gap + clause + rest
    ensures IndexOf(text, clause, from) == from + |gap| <==> FirstThere(gap, clause)
  {
    assert OccursAt(text, clause, from + |gap|) by {
      SameInContext(text, gap, clause, rest, from, |gap|);
      assert (gap + clause)[|gap|..|gap| + |clause|] == clause;
    }
    if FirstThere(gap, clause) {
      forall i: nat | from <= i < from + |gap| ensures !OccursAt(text, clause, i) {
        SameInContext(text, gap, clause, rest, from, i - from);
      }
    }
    if IndexOf(text, clause, from) == from + |gap| {
      forall j | 0 <= j < |gap| ensures !OccursAt(gap + clause, clause, j) {
        SameInContext(text, gap, clause, rest, from, j);
      }
    }
  }

  /** Where the search finds each clause, each from the end of the one before. */
  function FoundStarts(text: string, clauses: seq<string>, offset: nat): seq<int>
    requires NoneEmpty(clauses)
    decreases |clauses|
  {
    if clauses == [] then []
    else
      var start := IndexOf(text, clauses[0], offset);
      [start] + FoundStarts(text, clauses[1..], start + |clauses[0]|)
  }

  /** Where each clause stands. */
  function TrueStarts(gaps: seq<string>, clauses: seq<string>, base: nat): seq<int>
    requires |gaps| == |clauses| + 1
    decreases |clauses|
  {
    if clauses == [] then []
    else [base + |gaps[0]|] + TrueStarts(gaps[1..], clauses[1..], base + |gaps[0]| + |clauses[0]|)
  }

  lemma {:induction false} TrueStartIsStartOf(gaps: seq<string>, clauses: seq<string>, base: nat, k: nat)
    requires |gaps| == |clauses| + 1 && k < |clauses|
    ensures k < |TrueStarts(gaps, clauses, base)|
    ensures TrueStarts(gaps, clauses, base)[k] == base + StartOf(gaps, clauses, k)
    decreases k
  {
    if k > 0 {
      TrueStartIsStartOf(gaps[1..], clauses[1..], base + |gaps[0]| + |clauses[0]|, k - 1);
    }
  }

  lemma AllFirstInTwo(gaps: seq<string>, clauses: seq<string>)
    requires |gaps| == |clauses| + 1 && clauses != []
    ensures AllFirst(gaps, clauses) <==> FirstThere(gaps[0], clauses[0]) && AllFirst(gaps[1..], clauses[1..])
  {
    if FirstThere(gaps[0], clauses[0]) && AllFirst(gaps[1..], clauses[1..]) {
      forall k | 0 <= k < |clauses| ensures FirstThere(gaps[k], clauses[k]) {
        if k > 0 {
          assert FirstThere(gaps[1..][k - 1], clauses[1..][k - 1]);
        }
      }
    }
    if AllFirst(gaps, clauses) {
      forall k | 0 <= k < |clauses[1..]| ensures FirstThere(gaps[1..][k], clauses[1..][k]) {
        assert FirstThere(gaps[k + 1], clauses[k + 1]);
      }
    }
  }

  /** All clauses of a text are found where they stand if and only if none occurs earlier from its own
      separator on: once one is missed, the search is off, whatever follows. */
  lemma {:induction false} AllFoundIff(text: string, gaps: seq<string>, clauses: seq<string>, offset: nat)
    requires |gaps| == |clauses| + 1 && NoneEmpty(clauses)
    requires offset <= |text| && text[offset..] == Layout(gaps, clauses)
    ensures FoundStarts(text, clauses, offset) == TrueStarts(gaps, clauses, offset) <==> AllFirst(gaps, clauses)
    decreases |clauses|
  {
    if clauses != [] {
      hide FirstThere;
      hide IndexOf;
      hide AllFirst;
      var rest := Layout(gaps[1..], clauses[1..]);
      FoundWhereItStandsIff(text, gaps[0], clauses[0], rest, offset);
      RestOf(text, offset, gaps[0], clauses[0], rest);
      AllFirstInTwo(gaps, clauses);
      var start, next := IndexOf(text, clauses[0], offset), offset + |gaps[0]| + |clauses[0]|;
      AllFoundIff(text, gaps[1..], clauses[1..], next);
      var found := FoundStarts(text, clauses[1..], start + |clauses[0]|);
      var others := TrueStarts(gaps[1..], clauses[1..], next);
      assert ([start] + found)[0] == start && ([start] + found)[1..] == found;
      assert ([offset + |gaps[0]|] + others)[0] == offset + |gaps[0]| && ([offset + |gaps[0]|] + others)[1..] == others;
    }
  }

  /** A clause with some letter that does not occur in its separator. */
  predicate Distinct(gap: string, clause: string) {
    exists i | 0 <= i < |clause| :: clause[i] !in gap
  }

  function FirstOutside(gap: string, clause: string, from: nat): (i: nat)
    requires exists i :: from <= i < |clause| && clause[i] !in gap
    requires forall i :: 0 <= i < from && i < |clause| ==> clause[i] in gap
    ensures i < |clause| && clause[i] !in gap && forall j :: 0 <= j < i ==> clause[j] in gap
    decreases |clause| - from
  {
    if clause[from] !in gap then from else FirstOutside(gap, clause, from + 1)
  }

  /** One letter of its own is enough for a clause to be found where it stands. */
  lemma DistinctIsFirstThere(gap: string, clause: string)
    requires Distinct(gap, clause)
    ensures FirstThere(gap, clause)
  {
    var i := FirstOutside(gap, clause, 0);
    forall j: nat | j < |gap| ensures !OccursAt(gap + clause, clause, j) {
      assert (gap + clause)[j + i] in gap;
      OccursLetter(gap + clause, clause, j, i);
    }
  }

  lemma OccursLetter(text: string, clause: string, j: nat, i: nat)
    requires i < |clause|
    ensures OccursAt(text, clause, j) ==> j + i < |text| && text[j + i] == clause[i]
  {
    if OccursAt(text, clause, j) {
      assert text[j..j + |clause|][i] == text[j + i];
    }
  }

  /** But it is not needed: this clause has no letter of its own, and is found all the same. */
  lemma ALetterOfItsOwnIsNotNeeded()
    ensures !Distinct(" pero ", "ropero") && FirstThere(" pero ", "ropero")
  {
    var text := " pero " + "ropero";
    assert text[0] == ' ' && text[1] == 'p' && text[2] == 'e' && text[3] == 'r' && text[4] == 'o' && text[5] == ' ';
    forall j: nat | j < 6 ensures !OccursAt(text, "ropero", j) {
      OccursLetter(text, "ropero", j, 0);
      OccursLetter(text, "ropero", j, 2);
    }
  }

  /** The proofs of all clauses, each taken where it really stands. */
  function TrueSpans(parts: seq<string>, gaps: seq<string>, clauses: seq<string>, base: nat,
        policy: Policy, pending: seq<Question>)
    : seq<Proof>
    requires |gaps| == |clauses| + 1
    decreases |clauses|
  {
    if clauses == [] then []
    else
      ProofOf(parts, clauses[0], base + |gaps[0]|, policy, pending)
      + TrueSpans(parts, gaps[1..], clauses[1..], base + |gaps[0]| + |clauses[0]|, policy, pending)
  }

  lemma RestOf(text: string, offset: nat, gap: string, clause: string, rest: string)
    requires offset <= |text| && text[offset..] == gap + clause + rest
    ensures offset + |gap| + |clause| <= |text| && text[offset + |gap| + |clause|..] == rest
  {
    assert text[offset + |gap| + |clause|..] == text[offset..][|gap| + |clause|..];
  }

  /** Searching each clause from the end of the one before finds it where it stands. */
  lemma {:induction false} SpansAreTrue(parts: seq<string>, gaps: seq<string>, clauses: seq<string>, offset: nat,
                                       policy: Policy, pending: seq<Question>)
    requires |gaps| == |clauses| + 1 && AllFirst(gaps, clauses) && NoneEmpty(clauses)
    requires offset <= |JoinParts(parts)| && JoinParts(parts)[offset..] == Layout(gaps, clauses)
    ensures SpansFrom(parts, clauses, offset, policy, pending)
            == TrueSpans(parts, gaps, clauses, offset, policy, pending)
    decreases |clauses|
  {
    hide ProofOf;
    hide JoinParts;
    hide FirstThere;
    hide AllFirst;
    hide IndexOf;
    if clauses != [] {
      var text, rest := JoinParts(parts), Layout(gaps[1..], clauses[1..]);
      AllFirstInTwo(gaps, clauses);
      FoundWhereItStandsIff(text, gaps[0], clauses[0], rest, offset);
      RestOf(text, offset, gaps[0], clauses[0], rest);
      SpansAreTrue(parts, gaps[1..], clauses[1..], offset + |gaps[0]| + |clauses[0]|, policy, pending);
    }
  }

  lemma FoundTooEarly()
    ensures IndexOf("x pero pero pero", "pero pero", 1) == 2
  {
    var text := "x pero pero pero";
    assert text[2..2 + 9] == "pero pero" && text[1..1 + 9] == " pero per";
    assert !OccursAt(text, "pero pero", 1) && OccursAt(text, "pero pero", 2);
  }

  lemma StandsLater()
    ensures var gaps, clauses := ["", " pero ", ""], ["x", "pero pero"];
            Layout(gaps, clauses) == "x pero pero pero" && StartOf(gaps, clauses, 1) == 7
  {
    var gaps, clauses := ["", " pero ", ""], ["x", "pero pero"];
    assert gaps[1..] == [" pero ", ""] && clauses[1..] == ["pero pero"];
    assert gaps[1..][1..] == [""] && clauses[1..][1..] == [];
    assert Layout([""], []) == "";
    assert Layout([" pero ", ""], ["pero pero"]) == " pero pero pero";
  }

  /** A text on which the search fails: a repeated conjunction is found inside its separator. */
  lemma RepeatedConjunctionIsMislocated()
    ensures var gaps, clauses := ["", " pero ", ""], ["x", "pero pero"];
            && !FirstThere(gaps[1], clauses[1])
            && IndexOf(Layout(gaps, clauses), clauses[1], StartOf(gaps, clauses, 0) + |clauses[0]|) == 2
            && StartOf(gaps, clauses, 1) == 7
  {
    StandsLater();
    assert (" pero " + "pero pero")[1..1 + 9] == "pero pero" && OccursAt(" pero " + "pero pero", "pero pero", 1);
    hide Layout;
    hide IndexOf;
    FoundTooEarly();
  }

  lemma {:induction false} ProofHasAClause(parts: seq<string>, gaps: seq<string>, clauses: seq<string>, base: nat,
                                          policy: Policy, pending: seq<Question>, p: Proof) returns (k: nat)
    requires |gaps| == |clauses| + 1 && p in TrueSpans(parts, gaps, clauses, base, policy, pending)
    ensures k < |clauses| && p in ProofOf(parts, clauses[k], base + StartOf(gaps, clauses, k), policy, pending)
    decreases |clauses|
  {
    hide ProofOf;
    if p in ProofOf(parts, clauses[0], base + |gaps[0]|, policy, pending) {
      k := 0;
    } else {
      var rest := ProofHasAClause(parts, gaps[1..], clauses[1..], base + |gaps[0]| + |clauses[0]|, policy, pending, p);
      k := rest + 1;
    }
  }

  lemma {:induction false} ClauseHasItsProof(parts: seq<string>, gaps: seq<string>, clauses: seq<string>, base: nat,
                                            policy: Policy, pending: seq<Question>, p: Proof, k: nat)
    requires |gaps| == |clauses| + 1 && k < |clauses|
    requires p in ProofOf(parts, clauses[k], base + StartOf(gaps, clauses, k), policy, pending)
    ensures p in TrueSpans(parts, gaps, clauses, base, policy, pending)
    decreases |clauses|
  {
    hide ProofOf;
    if k > 0 {
      ClauseHasItsProof(parts, gaps[1..], clauses[1..], base + |gaps[0]| + |clauses[0]|, policy, pending, p, k - 1);
    }
  }

  /** The proof is that of `clause`: its questions are the pending ones that the clause settles, at least
      one, and it needs at least one part. */
  ghost predicate IsOfClause(p: Proof, clause: string, parts: seq<string>, policy: Policy, pending: seq<Question>) {
    && p.questions != [] && (forall q :: q in p.questions <==> q in pending && policy(clause, q))
    && p.partIndexes != [] && (forall i :: i in p.partIndexes ==> i < |parts|)
  }

  lemma ProofIsOfClause(parts: seq<string>, clause: string, start: int, policy: Policy, pending: seq<Question>,
          p: Proof)
    requires p in ProofOf(parts, clause, start, policy, pending)
    ensures IsOfClause(p, clause, parts, policy, pending)
  {
  }

  /** Whatever the texts are, every proof that is kept settles some pending question by a clause of the
      reply, and names the parts it needs. */
  lemma {:induction false} EveryProofSettlesSomething(parts: seq<string>, clauses: seq<string>, offset: nat,
        policy: Policy, pending: seq<Question>, p: Proof)
    requires NoneEmpty(clauses) && p in SpansFrom(parts, clauses, offset, policy, pending)
    ensures exists clause :: clause in clauses && IsOfClause(p, clause, parts, policy, pending)
    decreases |clauses|
  {
    hide JoinParts;
    hide IndexOf;
    hide ProofOf;
    hide IsOfClause;
    hide NoneEmpty;
    NoSpans(parts, offset, policy, pending);
    FirstSpan(parts, clauses, offset, policy, pending);
    hide SpansFrom;
    var start := IndexOf(JoinParts(parts), clauses[0], offset);
    if p in ProofOf(parts, clauses[0], start, policy, pending) {
      ProofIsOfClause(parts, clauses[0], start, policy, pending, p);
      assert clauses[0] in clauses;
    } else {
      EveryProofSettlesSomething(parts, clauses[1..], start + |clauses[0]|, policy, pending, p);
      assert forall clause :: clause in clauses[1..] ==> clause in clauses;
    }
  }

  // ---------------------------------------------------------------- what is stored with the batch

  predicate NoRepeats(questions: seq<Question>) {
    forall i, j :: 0 <= i < j < |questions| ==> questions[i] != questions[j]
  }

  function Distinctly(questions: seq<Question>): (r: seq<Question>)
    ensures forall q :: q in r <==> q in questions
    ensures NoRepeats(r)
    decreases |questions|
  {
    if questions == [] then []
    else
      var front, last := Distinctly(questions[..|questions| - 1]), questions[|questions| - 1];
      if last in front then front else front + [last]
  }

  function QuestionsOfPart(proofs: seq<Proof>, index: nat): (r: seq<Question>)
    ensures forall q :: q in r <==> exists p :: p in proofs && p.partIndexes == [index] && q in p.questions
  {
    if proofs == [] then []
    else (if proofs[0].partIndexes == [index] then proofs[0].questions else []) + QuestionsOfPart(proofs[1..], index)
  }

  function Spanning(proofs: seq<Proof>): (r: seq<Proof>)
    ensures forall p :: p in r <==> p in proofs && |p.partIndexes| > 1
  {
    if proofs == [] then []
    else (if |proofs[0].partIndexes| > 1 then [proofs[0]] else []) + Spanning(proofs[1..])
  }

  function Quoted(pending: seq<Question>): (r: seq<Question>)
    ensures forall q :: q in r <==> q in pending && q in {Price, Timeline}
  {
    if pending == [] then []
    else (if pending[0] in {Price, Timeline} then [pending[0]] else []) + Quoted(pending[1..])
  }

  datatype Resolution = Resolution(
    pending: seq<Question>, byOperation: seq<Question>, byPart: seq<seq<Question>>, bySpan: seq<Proof>)

  function Store(proofs: seq<Proof>, parts: nat, pending: seq<Question>, quoteCreated: bool): Resolution {
    Resolution(pending, if quoteCreated then Quoted(pending) else [],
               seq(parts, i requires 0 <= i < parts => Distinctly(QuestionsOfPart(proofs, i))), Spanning(proofs))
  }

  // ---------------------------------------------------------------- what a set of confirmed parts settles

  predicate AllConfirmed(indexes: seq<nat>, confirmed: seq<nat>) {
    forall i :: i in indexes ==> i in confirmed
  }

  method ResolvedBy(res: Resolution, confirmed: seq<nat>) returns (resolved: set<Question>)
    ensures resolved == Resolved(res, confirmed)
  {
    resolved := set q | q in res.byOperation;
    var n := 0;
    while n < |confirmed|
      invariant n <= |confirmed|
      invariant forall q :: q in resolved <==> q in res.byOperation || SettledByPart(res, confirmed[..n], q)
    {
      var index := confirmed[n];
      assert confirmed[..n + 1] == confirmed[..n] + [index];
      if index < |res.byPart| {
        resolved := resolved + set q | q in res.byPart[index];
      }
      n := n + 1;
    }
    assert confirmed[..n] == confirmed;
    n := 0;
    while n < |res.bySpan|
      invariant n <= |res.bySpan|
      invariant forall q :: q in resolved <==>
                  || q in res.byOperation || SettledByPart(res, confirmed, q)
                  || SettledBySpan(res.bySpan[..n], confirmed, q)
    {
      var span := res.bySpan[n];
      assert res.bySpan[..n + 1] == res.bySpan[..n] + [span];
      if AllConfirmed(span.partIndexes, confirmed) {
        resolved := resolved + set q | q in span.questions;
      }
      n := n + 1;
    }
    assert res.bySpan[..n] == res.bySpan;
  }

  predicate SettledByPart(res: Resolution, confirmed: seq<nat>, q: Question) {
    exists i | i in confirmed :: i < |res.byPart| && q in res.byPart[i]
  }

  predicate SettledBySpan(spans: seq<Proof>, confirmed: seq<nat>, q: Question) {
    exists p | p in spans :: AllConfirmed(p.partIndexes, confirmed) && q in p.questions
  }

  ghost function PartQuestions(res: Resolution): set<Question> {
    set i, q | 0 <= i < |res.byPart| && q in res.byPart[i] :: q
  }

  ghost function SpanQuestions(res: Resolution): set<Question> {
    set p, q | p in res.bySpan && q in p.questions :: q
  }

  ghost function Resolved(res: Resolution, confirmed: seq<nat>): (r: set<Question>)
    ensures forall q :: q in r <==>
              q in res.byOperation || SettledByPart(res, confirmed, q) || SettledBySpan(res.bySpan, confirmed, q)
  {
    assert forall q :: SettledByPart(res, confirmed, q) ==> q in PartQuestions(res);
    assert forall q :: SettledBySpan(res.bySpan, confirmed, q) ==> q in SpanQuestions(res);
    set q | q in (set o | o in res.byOperation) + PartQuestions(res) + SpanQuestions(res)
            && (q in res.byOperation || SettledByPart(res, confirmed, q) || SettledBySpan(res.bySpan, confirmed, q))
  }

  /** The proof settles `q` and all parts it needs are confirmed. */
  predicate Proves(p: Proof, confirmed: seq<nat>, q: Question) {
    q in p.questions && AllConfirmed(p.partIndexes, confirmed)
  }

  /** A proof as the spans are computed: some parts, each of the batch, in order. */
  predicate IsProof(p: Proof, parts: nat) {
    && p.partIndexes != [] && (forall i :: i in p.partIndexes ==> i < parts)
    && (forall i, j :: 0 <= i < j < |p.partIndexes| ==> p.partIndexes[i] < p.partIndexes[j])
  }

  lemma ProofIsStored(proofs: seq<Proof>, parts: nat, pending: seq<Question>, quoteCreated: bool,
                     confirmed: seq<nat>, q: Question, p: Proof)
    requires p in proofs && IsProof(p, parts) && Proves(p, confirmed, q)
    ensures var res := Store(proofs, parts, pending, quoteCreated);
            SettledByPart(res, confirmed, q) || SettledBySpan(res.bySpan, confirmed, q)
  {
    var res := Store(proofs, parts, pending, quoteCreated);
    if |p.partIndexes| > 1 {
      assert p in res.bySpan;
    } else {
      var i := p.partIndexes[0];
      assert p.partIndexes == [i] && i in p.partIndexes && i in confirmed;
      assert q in QuestionsOfPart(proofs, i) && q in res.byPart[i];
    }
  }

  lemma StoredIsProof(proofs: seq<Proof>, parts: nat, pending: seq<Question>, quoteCreated: bool, confirmed: seq<nat>,
          q: Question)
    requires var res := Store(proofs, parts, pending, quoteCreated);
             SettledByPart(res, confirmed, q) || SettledBySpan(res.bySpan, confirmed, q)
    ensures exists p :: p in proofs && Proves(p, confirmed, q)
  {
    var res := Store(proofs, parts, pending, quoteCreated);
    if SettledByPart(res, confirmed, q) {
      var i :| i in confirmed && i < |res.byPart| && q in res.byPart[i];
      var p :| p in proofs && p.partIndexes == [i] && q in p.questions;
      assert Proves(p, confirmed, q);
    } else {
      var p :| p in res.bySpan && AllConfirmed(p.partIndexes, confirmed) && q in p.questions;
      assert Proves(p, confirmed, q);
    }
  }

  /** A question counts as settled exactly when an operation recorded it, or some clause settles it and
      every part that clause reaches into is confirmed. */
  lemma SettledIffWholeClauseArrived(proofs: seq<Proof>, parts: nat, pending: seq<Question>, quoteCreated: bool,
                                     confirmed: seq<nat>, q: Question)
    requires forall p :: p in proofs ==> IsProof(p, parts)
    ensures q in Resolved(Store(proofs, parts, pending, quoteCreated), confirmed) <==>
              || (quoteCreated && q in pending && q in {Price, Timeline})
              || exists p :: p in proofs && Proves(p, confirmed, q)
  {
    hide Proves;
    hide SettledByPart;
    hide SettledBySpan;
    var res := Store(proofs, parts, pending, quoteCreated);
    if p :| p in proofs && Proves(p, confirmed, q) {
      ProofIsStored(proofs, parts, pending, quoteCreated, confirmed, q, p);
    }
    if SettledByPart(res, confirmed, q) || SettledBySpan(res.bySpan, confirmed, q) {
      StoredIsProof(proofs, parts, pending, quoteCreated, confirmed, q);
    }
  }

  /** More confirmed parts settle no fewer questions. */
  lemma SettlingIsMonotone(res: Resolution, fewer: seq<nat>, more: seq<nat>)
    requires forall i :: i in fewer ==> i in more
    ensures Resolved(res, fewer) <= Resolved(res, more)
  {
    forall q | q in Resolved(res, fewer) ensures q in Resolved(res, more) {
      if SettledByPart(res, fewer, q) {
        var i :| i in fewer && i < |res.byPart| && q in res.byPart[i];
        assert i in more;
      }
    }
  }

  lemma {:induction false} TrueSpansAreProofs(parts: seq<string>, gaps: seq<string>, clauses: seq<string>, base: nat,
                                             policy: Policy, pending: seq<Question>, p: Proof)
    requires |gaps| == |clauses| + 1 && p in TrueSpans(parts, gaps, clauses, base, policy, pending)
    ensures IsProof(p, |parts|)
  {
    var k := ProofHasAClause(parts, gaps, clauses, base, policy, pending, p);
  }

  /** Clause `k` settles `q` and has arrived whole. */
  ghost predicate SettlesWhole(parts: seq<string>, gaps: seq<string>, clauses: seq<string>, k: nat, policy: Policy,
                              pending: seq<Question>, confirmed: seq<nat>, q: Question)
    requires |gaps| == |clauses| + 1 && k < |clauses|
  {
    var start := StartOf(gaps, clauses, k);
    var end := start + |clauses[k]|;
    && q in pending && policy(clauses[k], q)
    && (exists i: nat :: i < |parts| && Overlaps(parts, i, start, end))
    && (forall i: nat :: i < |parts| && Overlaps(parts, i, start, end) ==> i in confirmed)
  }

  lemma WholeClauseHasProof(parts: seq<string>, gaps: seq<string>, clauses: seq<string>, k: nat, policy: Policy,
                           pending: seq<Question>, confirmed: seq<nat>, q: Question)
    requires |gaps| == |clauses| + 1 && k < |clauses|
             && SettlesWhole(parts, gaps, clauses, k, policy, pending, confirmed, q)
    ensures exists p :: p in TrueSpans(parts, gaps, clauses, 0, policy, pending) && Proves(p, confirmed, q)
  {
    var start := StartOf(gaps, clauses, k);
    var indexes := Overlapping(parts, start, start + |clauses[k]|, |parts|);
    var questions := Settled(policy, clauses[k], pending);
    var p := Proof(indexes, questions);
    assert q in questions && Proves(p, confirmed, q);
    var i: nat :| i < |parts| && Overlaps(parts, i, start, start + |clauses[k]|);
    assert i in indexes;
    assert ProofOf(parts, clauses[k], start, policy, pending) == [p];
    hide ProofOf;
    hide Proves;
    hide Overlaps;
    hide TrueSpans;
    ClauseHasItsProof(parts, gaps, clauses, 0, policy, pending, p, k);
  }

  /** What a proof says about each question and each part. */
  lemma ReadProof(parts: seq<string>, clause: string, start: nat, policy: Policy, pending: seq<Question>, p: Proof,
                  q: Question, i: nat)
    requires p in ProofOf(parts, clause, start, policy, pending)
    ensures q in p.questions <==> q in pending && policy(clause, q)
    ensures i in p.partIndexes <==> i < |parts| && Overlaps(parts, i, start, start + |clause|)
    ensures p.partIndexes != []
  {
    hide Overlaps;
    hide Overlapping;
    hide Settled;
  }

  lemma ProofSettlesWhole(parts: seq<string>, gaps: seq<string>, clauses: seq<string>, k: nat, policy: Policy,
                         pending: seq<Question>, confirmed: seq<nat>, q: Question, p: Proof)
    requires |gaps| == |clauses| + 1 && k < |clauses| && Proves(p, confirmed, q)
    requires p in ProofOf(parts, clauses[k], StartOf(gaps, clauses, k), policy, pending)
    ensures SettlesWhole(parts, gaps, clauses, k, policy, pending, confirmed, q)
  {
    hide ProofOf;
    hide StartOf;
    hide Overlaps;
    var start := StartOf(gaps, clauses, k);
    forall i: nat ensures i in p.partIndexes <==> i < |parts| && Overlaps(parts, i, start, start + |clauses[k]|) {
      ReadProof(parts, clauses[k], start, policy, pending, p, q, i);
    }
    ReadProof(parts, clauses[k], start, policy, pending, p, q, 0);
    assert p.partIndexes[0] in p.partIndexes;
  }

  lemma SettlingProofHasAClause(parts: seq<string>, gaps: seq<string>, clauses: seq<string>, policy: Policy,
                               pending: seq<Question>, confirmed: seq<nat>, q: Question, p: Proof) returns (k: nat)
    requires |gaps| == |clauses| + 1 && p in TrueSpans(parts, gaps, clauses, 0, policy, pending)
    requires Proves(p, confirmed, q)
    ensures k < |clauses| && SettlesWhole(parts, gaps, clauses, k, policy, pending, confirmed, q)
  {
    hide TrueSpans;
    hide ProofOf;
    hide SettlesWhole;
    hide Proves;
    k := ProofHasAClause(parts, gaps, clauses, 0, policy, pending, p);
    ProofSettlesWhole(parts, gaps, clauses, k, policy, pending, confirmed, q, p);
  }

  lemma WholeClausesAreTheProofs(parts: seq<string>, gaps: seq<string>, clauses: seq<string>, policy: Policy,
                                pending: seq<Question>, confirmed: seq<nat>, q: Question)
    requires |gaps| == |clauses| + 1
    ensures (exists p :: p in TrueSpans(parts, gaps, clauses, 0, policy, pending) && Proves(p, confirmed, q))
       <==> exists k :: 0 <= k < |clauses| && SettlesWhole(parts, gaps, clauses, k, policy, pending, confirmed, q)
  {
    hide TrueSpans;
    hide SettlesWhole;
    hide Proves;
    if p :| p in TrueSpans(parts, gaps, clauses, 0, policy, pending) && Proves(p, confirmed, q) {
      var k := SettlingProofHasAClause(parts, gaps, clauses, policy, pending, confirmed, q, p);
    }
    if k :| 0 <= k < |clauses| && SettlesWhole(parts, gaps, clauses, k, policy, pending, confirmed, q) {
      WholeClauseHasProof(parts, gaps, clauses, k, policy, pending, confirmed, q);
    }
  }

  /** The end-to-end statement. The reply's text is its parts joined by spaces and, read as clauses, the
      clauses with what separates them. Then a pending question is settled exactly when an operation
      recorded it, or some clause settles it, reaches into some part, and each part it reaches into
      where it stands has been confirmed. */
  lemma QuestionsAreSettledByWholeClauses(parts: seq<string>, gaps: seq<string>, clauses: seq<string>, policy: Policy,
                                         pending: seq<Question>, quoteCreated: bool, confirmed: seq<nat>, q: Question)
    requires |gaps| == |clauses| + 1 && AllFirst(gaps, clauses) && NoneEmpty(clauses)
    requires JoinParts(parts) == Layout(gaps, clauses)
    ensures var res := Store(SpansFrom(parts, clauses, 0, policy, pending), |parts|, pending, quoteCreated);
            q in Resolved(res, confirmed) <==>
              || (quoteCreated && q in pending && q in {Price, Timeline})
              || exists k :: 0 <= k < |clauses| && SettlesWhole(parts, gaps, clauses, k, policy, pending, confirmed, q)
  {
    hide TrueSpans;
    hide SpansFrom;
    hide SettlesWhole;
    hide Proves;
    hide IsProof;
    assert JoinParts(parts)[0..] == JoinParts(parts);
    SpansAreTrue(parts, gaps, clauses, 0, policy, pending);
    var proofs := TrueSpans(parts, gaps, clauses, 0, policy, pending);
    forall p | p in proofs ensures IsProof(p, |parts|) {
      TrueSpansAreProofs(parts, gaps, clauses, 0, policy, pending, p);
    }
    SettledIffWholeClauseArrived(proofs, |parts|, pending, quoteCreated, confirmed, q);
    WholeClausesAreTheProofs(parts, gaps, clauses, policy, pending, confirmed, q);
  }

  /** The text has the part `i` at its start, letter by letter, then one space or the end. */
  predicate PartIsThere(parts: seq<string>, i: nat)
    requires i < |parts|
  {
    var text, at, end := JoinParts(parts), PartStart(parts, i), PartStart(parts, i) + |parts[i]|;
    && end <= |text| && text[at..end] == parts[i]
    && (i + 1 < |parts| ==> end < |text| && text[end] == ' ' && PartStart(parts, i + 1) == end + 1)
    && (i + 1 == |parts| ==> end == |text|)
  }

  /** Where the text has each part: it begins there, is spelled there letter by letter, and exactly one
      space separates it from the next. */
  lemma {:induction false} PartStandsThere(parts: seq<string>, i: nat)
    requires i < |parts|
    ensures PartIsThere(parts, i)
    decreases |parts|
  {
    if i > 0 {
      PartStandsThere(parts[1..], i - 1);
      PartStandsLater(parts, i);
    } else if |parts| > 1 {
      assert JoinParts(parts)[..|parts[0]|] == parts[0];
    }
  }

  lemma PartStandsLater(parts: seq<string>, i: nat)
    requires 0 < i < |parts| && PartIsThere(parts[1..], i - 1)
    ensures PartIsThere(parts, i)
  {
    hide PartStart;
    var rest := parts[1..];
    StartInTwo(parts, i);
    StartInTwo(parts, i + 1);
    ShiftedSlice(parts[0] + " ", JoinParts(rest), PartStart(rest, i - 1), PartStart(rest, i - 1) + |parts[i]|);
  }

  lemma ShiftedSlice(front: string, rest: string, lo: nat, hi: nat)
    requires lo <= hi <= |rest|
    ensures (front + rest)[|front| + lo..|front| + hi] == rest[lo..hi]
    ensures hi < |rest| ==> (front + rest)[|front| + hi] == rest[hi]
  {
  }

  lemma {:induction false} StartInTwo(parts: seq<string>, i: nat)
    requires 0 < i <= |parts|
    ensures PartStart(parts, i) == |parts[0]| + 1 + PartStart(parts[1..], i - 1)
    decreases i
  {
    if i > 1 {
      StartInTwo(parts, i - 1);
    }
  }

  /** The letter at `x` of the text belongs to the part `i`. */
  predicate Covers(parts: seq<string>, i: nat, x: nat)
    requires i < |parts|
  {
    PartStart(parts, i) <= x < PartStart(parts, i) + |parts[i]|
  }

  /** The letter at `x` of the text is that of the part `i`. */
  predicate LetterOf(parts: seq<string>, i: nat, x: nat)
    requires i < |parts|
  {
    Covers(parts, i, x) && x < |JoinParts(parts)| && parts[i][x - PartStart(parts, i)] == JoinParts(parts)[x]
  }

  /** The letter at `x` of the text is the space between the parts `i` and `i + 1`. */
  predicate SpaceAfter(parts: seq<string>, i: nat, x: nat)
    requires i < |parts|
  {
    i + 1 < |parts| && x == PartStart(parts, i) + |parts[i]| && x < |JoinParts(parts)| && JoinParts(parts)[x] == ' '
  }

  /** Every letter of the text is that of one part, or is the space between two parts; and no two parts
      have a letter in common. */
  lemma LettersArePartsOrSpaces(parts: seq<string>, x: nat)
    requires x < |JoinParts(parts)|
    ensures exists i: nat :: i < |parts| && (LetterOf(parts, i, x) || SpaceAfter(parts, i, x))
    ensures forall i: nat, j: nat :: i < j < |parts| ==> !(Covers(parts, i, x) && Covers(parts, j, x))
  {
    hide JoinParts;
    hide PartStart;
    TextHasAPart(parts);
    var i := PartAt(parts, x, |parts| - 1);
    PartStandsThere(parts, i);
    if Covers(parts, i, x) {
      CoveredIsLetter(parts, i, x);
    } else {
      assert SpaceAfter(parts, i, x);
    }
    forall i: nat, j: nat | i < j < |parts| ensures !(Covers(parts, i, x) && Covers(parts, j, x)) {
      StartsGrow(parts, i, j);
    }
  }

  lemma TextHasAPart(parts: seq<string>)
    requires JoinParts(parts) != ""
    ensures parts != []
  {
  }

  lemma CoveredIsLetter(parts: seq<string>, i: nat, x: nat)
    requires i < |parts| && PartIsThere(parts, i) && Covers(parts, i, x)
    ensures LetterOf(parts, i, x)
  {
    hide JoinParts;
    hide PartStart;
    var at := PartStart(parts, i);
    assert JoinParts(parts)[at..at + |parts[i]|][x - at] == JoinParts(parts)[x];
  }

  lemma {:induction false} StartsGrow(parts: seq<string>, i: nat, j: nat)
    requires i < j <= |parts|
    ensures PartStart(parts, i) + |parts[i]| < PartStart(parts, j)
    decreases j
  {
    if i < j - 1 {
      StartsGrow(parts, i, j - 1);
    }
  }

  /** The last part that begins at or before `x`, among the first. */
  function PartAt(parts: seq<string>, x: nat, last: nat): (i: nat)
    requires last < |parts|
    ensures i <= last && PartStart(parts, i) <= x && (i < last ==> x < PartStart(parts, i + 1))
  {
    if PartStart(parts, last) <= x then last else PartAt(parts, x, last - 1)
  }

  /** A clause that stands in the text overlaps exactly those parts of which it has a letter. */
  lemma OverlappingMeansSharing(parts: seq<string>, i: nat, clause: string, start: nat)
    requires i < |parts| && parts[i] != "" && clause != "" && OccursAt(JoinParts(parts), clause, start)
    ensures Overlaps(parts, i, start, start + |clause|) <==>
              exists x: nat :: start <= x < start + |clause| && Covers(parts, i, x)
                && parts[i][x - PartStart(parts, i)] == JoinParts(parts)[x] == clause[x - start]
  {
    hide JoinParts;
    hide PartStart;
    if Overlaps(parts, i, start, start + |clause|) {
      var at, text := PartStart(parts, i), JoinParts(parts);
      var x := if start <= at then at else start;
      PartStandsThere(parts, i);
      CoveredIsLetter(parts, i, x);
      assert text[start..start + |clause|][x - start] == text[x];
      assert Covers(parts, i, x);
    }
  }

  // ---------------------------------------------------------------- recovery

  type Field = nat
  type Text = nat

  /** A value as the turn's profile may carry it. */
  datatype Entry = Undefined | Null | Empty | Value(text: Text)

  /** The profile as it is stored: blank values are never written. */
  datatype Profile = Profile(fields: map<Field, Text>, pending: Option<seq<Question>>)

  function Without(questions: seq<Question>, resolved: set<Question>): (r: seq<Question>)
    ensures forall q :: q in r <==> q in questions && q !in resolved
    decreases |questions|
  {
    if questions == [] then []
    else
      var last := questions[|questions| - 1];
      Without(questions[..|questions| - 1], resolved) + if last in resolved then [] else [last]
  }

  /** The pending questions to be kept: those already stored, then those of this reply, each once, as
      far as they are not settled. */
  ghost function StillPending(stored: Option<Profile>, res: Resolution, confirmed: seq<nat>): seq<Question> {
    var before := if stored.Some? && stored.value.pending.Some? then stored.value.pending.value else [];
    Without(Distinctly(before + res.pending), Resolved(res, confirmed))
  }

  /** Whether a stored field and a given value have the same JSON text. */
  predicate SameJson(fields: map<Field, Text>, f: Field, entry: Entry) {
    match entry
    case Undefined => f !in fields
    case Value(text) => f in fields && fields[f] == text
    case _ => false
  }

  function Entries(turn: map<Field, Entry>): map<Field, Text> {
    map f | f in turn && turn[f].Value? :: turn[f].text
  }

  datatype Reconciliation = NothingToDo | Unchanged | Write(profile: Profile)

  /** What a delivery, or a recovery of it, writes to the profile; a recovery carries no turn profile. */
  ghost function Reconcile(stored: Option<Profile>, res: Resolution, confirmed: seq<nat>,
        turn: map<Field, Entry>): Reconciliation {
    if confirmed == [] && res.pending == [] then NothingToDo
    else
      var given := if confirmed == [] then map[] else turn;
      var pending := StillPending(stored, res, confirmed);
      if stored.Some? && stored.value.pending == Some(pending) && forall f :: f in given ==>
            SameJson(stored.value.fields, f, given[f])
      then Unchanged
      else
        Write(Profile((if stored.Some? then stored.value.fields else map[]) + Entries(given), Some(pending)))
  }

  lemma {:induction false} DistinctlyOfDistinct(questions: seq<Question>)
    requires NoRepeats(questions)
    ensures Distinctly(questions) == questions
    decreases |questions|
  {
    if questions != [] {
      DistinctlyOfDistinct(questions[..|questions| - 1]);
      assert questions == questions[..|questions| - 1] + [questions[|questions| - 1]];
    }
  }

  lemma {:induction false} WithoutKeepsDistinct(questions: seq<Question>, resolved: set<Question>)
    requires NoRepeats(questions)
    ensures NoRepeats(Without(questions, resolved))
    decreases |questions|
  {
    if questions != [] {
      var front, last := questions[..|questions| - 1], questions[|questions| - 1];
      assert last !in front;
      WithoutKeepsDistinct(front, resolved);
    }
  }

  lemma {:induction false} WithoutNothing(questions: seq<Question>, resolved: set<Question>)
    requires forall q :: q in questions ==> q !in resolved
    ensures Without(questions, resolved) == questions
    decreases |questions|
  {
    if questions != [] {
      var front, last := questions[..|questions| - 1], questions[|questions| - 1];
      assert questions == front + [last];
      assert last in questions && forall q :: q in front ==> q in questions;
      WithoutNothing(front, resolved);
    }
  }

  /** Appending questions that are all kept already or settled changes nothing. */
  lemma {:induction false} AppendingChangesNothing(kept: seq<Question>, more: seq<Question>, resolved: set<Question>)
    requires NoRepeats(kept)
    requires (forall q :: q in kept ==> q !in resolved) && forall q :: q in more ==> q in kept || q in resolved
    ensures Without(Distinctly(kept + more), resolved) == kept
    decreases |more|
  {
    if more == [] {
      assert kept + more == kept;
      DistinctlyOfDistinct(kept);
      WithoutNothing(kept, resolved);
    } else {
      var front, last := more[..|more| - 1], more[|more| - 1];
      AppendingChangesNothing(kept, front, resolved);
      assert (kept + more)[..|kept + more| - 1] == kept + front;
      var before := Distinctly(kept + front);
      if last !in before {
        assert last !in kept;
        assert Distinctly(kept + more) == before + [last] && (before + [last])[..|before + [last]| - 1] == before;
      }
    }
  }

  lemma PendingIsStable(stored: Option<Profile>, after: Profile, res: Resolution, confirmed: seq<nat>)
    requires after.pending == Some(StillPending(stored, res, confirmed))
    ensures StillPending(Some(after), res, confirmed) == StillPending(stored, res, confirmed)
  {
    var resolved := Resolved(res, confirmed);
    var before := if stored.Some? && stored.value.pending.Some? then stored.value.pending.value else [];
    var kept := StillPending(stored, res, confirmed);
    WithoutKeepsDistinct(Distinctly(before + res.pending), resolved);
    AppendingChangesNothing(kept, res.pending, resolved);
  }

  /** A recovery that follows a write with the same confirmed parts computes the identical list and
      writes nothing, however often it is repeated. */
  lemma SecondRecoveryWritesNothing(stored: Option<Profile>, res: Resolution, confirmed: seq<nat>,
          turn: map<Field, Entry>)
    requires Reconcile(stored, res, confirmed, turn).Write?
    ensures var after := Reconcile(stored, res, confirmed, turn).profile;
            && StillPending(Some(after), res, confirmed) == StillPending(stored, res, confirmed)
            && Reconcile(Some(after), res, confirmed, map[]) == Unchanged
  {
    var after := Reconcile(stored, res, confirmed, turn).profile;
    PendingIsStable(stored, after, res, confirmed);
  }

  /** Repeating a delivery together with its turn profile writes nothing either, exactly as long as the
      turn's blank values are absent ones of fields that are not stored: a null or an empty value is
      never stored, and so is found different every time. */
  lemma RepeatWithProfileWritesNothingIff(stored: Option<Profile>, res: Resolution, confirmed: seq<nat>,
        turn: map<Field, Entry>)
    requires Reconcile(stored, res, confirmed, turn).Write? && confirmed != []
    ensures var after := Reconcile(stored, res, confirmed, turn).profile;
            Reconcile(Some(after), res, confirmed, turn) == Unchanged
            <==> forall f :: f in turn && !turn[f].Value? ==>
                   turn[f].Undefined? && !(stored.Some? && f in stored.value.fields)
  {
    var after := Reconcile(stored, res, confirmed, turn).profile;
    PendingIsStable(stored, after, res, confirmed);
    hide StillPending;
    forall f | f in turn ensures SameJson(after.fields, f, turn[f]) <==>
        (turn[f].Value? || (turn[f].Undefined? && !(stored.Some? && f in stored.value.fields))) {
    }
  }

  /** What a recovery keeps: no question appears that was neither stored nor of this reply, none of them
      is dropped unless it is settled, and more confirmed parts keep no more. */
  lemma OnlySettledQuestionsAreCleared(stored: Option<Profile>, res: Resolution, fewer: seq<nat>,
        more: seq<nat>, q: Question)
    requires forall i :: i in fewer ==> i in more
    ensures q in StillPending(stored, res, fewer) <==>
              && q !in Resolved(res, fewer)
              && (q in res.pending || (stored.Some? && stored.value.pending.Some? && q in stored.value.pending.value))
    ensures q in StillPending(stored, res, more) ==> q in StillPending(stored, res, fewer)
  {
    SettlingIsMonotone(res, fewer, more);
  }

  /** What is written: the stored fields, overwritten by the values that the turn's profile gives if some
      part has been confirmed, and the questions that are still pending. */
  lemma WhatIsWritten(stored: Option<Profile>, res: Resolution, confirmed: seq<nat>, turn: map<Field, Entry>, f: Field)
    requires Reconcile(stored, res, confirmed, turn).Write?
    ensures var after := Reconcile(stored, res, confirmed, turn).profile;
            var gives := confirmed != [] && f in turn && turn[f].Value?;
            && (f in after.fields <==> gives || (stored.Some? && f in stored.value.fields))
            && (f in after.fields ==> after.fields[f] == if gives then turn[f].text else stored.value.fields[f])
            && after.pending == Some(StillPending(stored, res, confirmed))
  {
    hide StillPending;
  }

  /** A recovery writes exactly if something was confirmed or pending, and there is no stored profile or
      one with other pending questions. */
  lemma RecoveryWritesIff(stored: Option<Profile>, res: Resolution, confirmed: seq<nat>)
    ensures Reconcile(stored, res, confirmed, map[]).Write? <==>
              && (confirmed != [] || res.pending != [])
              && (stored == None || stored.value.pending != Some(StillPending(stored, res, confirmed)))
  {
    hide StillPending;
  }

  /** The questions stored before come first, in their order. */
  lemma StoredComeFirst(stored: Profile, res: Resolution, confirmed: seq<nat>)
    requires stored.pending.Some? && NoRepeats(stored.pending.value)
    ensures Without(stored.pending.value, Resolved(res, confirmed)) <= StillPending(Some(stored), res, confirmed)
  {
    FrontStaysInFront(stored.pending.value, res.pending, Resolved(res, confirmed));
  }

  lemma DistinctlyOneMore(questions: seq<Question>, q: Question)
    ensures Distinctly(questions + [q]) ==
              if q in Distinctly(questions) then Distinctly(questions) else Distinctly(questions) + [q]
  {
    assert (questions + [q])[..|questions + [q]| - 1] == questions;
  }

  lemma WithoutOneMore(questions: seq<Question>, q: Question, resolved: set<Question>)
    ensures Without(questions + [q], resolved) == Without(questions, resolved) + if q in resolved then [] else [q]
  {
    assert (questions + [q])[..|questions + [q]| - 1] == questions;
  }

  lemma {:induction false} FrontStaysInFront(before: seq<Question>, more: seq<Question>, resolved: set<Question>)
    requires NoRepeats(before)
    ensures Without(before, resolved) <= Without(Distinctly(before + more), resolved)
    decreases |more|
  {
    hide Distinctly;
    hide Without;
    if more == [] {
      assert before + more == before;
      DistinctlyOfDistinct(before);
    } else {
      var front, last := more[..|more| - 1], more[|more| - 1];
      FrontStaysInFront(before, front, resolved);
      assert before + more == (before + front) + [last];
      DistinctlyOneMore(before + front, last);
      WithoutOneMore(Distinctly(before + front), last, resolved);
    }
  }
}
