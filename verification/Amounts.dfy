/** Reading an amount of money from a text: four grammars for the number and one value, in cents.

    A number is plain, or decimal after a comma or a point, or grouped by one of the two and decimal
    after the other; no number is of two kinds. Whatever is printed in any of these forms is read back.

    Values are exact; where a double would round, nothing is said. */
module Amounts {
  import opened Options
  import opened NumberTexts

  const MAX_SAFE_INTEGER := 0x1F_FFFF_FFFF_FFFF

  /** Below 2^45 every amount in cents is told apart by a double; beyond it is not modelled. */
  const EXACT_BELOW := 100 * 0x2000_0000_0000

  // ---------------------------------------------------------------- the part that is read

  /** The first run of digits and separators that starts with a digit, without separators at its end. */
  function NumberIn(raw: string): string {
    TrimSeparators(Span(SkipToDigit(raw)))
  }

  // ---------------------------------------------------------------- the four grammars

  /** Digits only, at least one. */
  predicate IsPlain(s: string) {
    s != "" && AllDigits(s)
  }

  /** One or two digits. */
  predicate IsFraction(s: string) {
    1 <= |s| <= 2 && AllDigits(s)
  }

  /** Digits with one or two decimals after a comma or a point. */
  predicate IsDecimal(s: string) {
    exists i | 0 <= i < |s| :: IsPlain(s[..i]) && IsSeparator(s[i]) && IsFraction(s[i + 1..])
  }

  /** Groups of three digits behind one to three digits, each after `sep`. */
  predicate IsGrouped(s: string, sep: char) {
    && |s| >= 5 && s[|s| - 4] == sep && AllDigits(s[|s| - 3..])
    && ((|s| - 4 <= 3 && AllDigits(s[..|s| - 4])) || IsGrouped(s[..|s| - 4], sep))
  }

  /** A grouped number, with one or two decimals after `point` or without. */
  predicate IsGroupedDecimal(s: string, sep: char, point: char) {
    || IsGrouped(s, sep)
    || exists i | 0 <= i < |s| :: IsGrouped(s[..i], sep) && s[i] == point && IsFraction(s[i + 1..])
  }

  // ---------------------------------------------------------------- the value

  /** The decimal text that `Number` is given, if the number is well formed. */
  function Decimal(s: string): Option<string> {
    if IsPlain(s) then Some(s)
    else if IsDecimal(s) then Some(CommaToPoint(s))
    else if IsGroupedDecimal(s, ',', '.') then Some(Remove(s, ','))
    else if IsGroupedDecimal(s, '.', ',') then Some(CommaToPoint(Remove(s, '.')))
    else None
  }

  /** A decimal text `12`, `12.3` or `12.34` in cents. */
  function Cents(decimal: string): nat {
    var i := PointAt(decimal);
    var whole, fraction := decimal[..i], if i < |decimal| then decimal[i + 1..] else "";
    if !AllDigits(whole) || !AllDigits(fraction) then 0
    else 100 * Number(whole) + (if |fraction| == 1 then 10 * Number(fraction) else Number(fraction))
  }

  /** `toFixed(2)` */
  function ToFixed(cents: nat): string {
    Digits(cents / 100) + "." + [DigitChar(cents / 10 % 10), DigitChar(cents % 10)]
  }

  function NormalizeAmount(raw: string): Option<string> {
    var s := NumberIn(raw);
    if s == "" then None
    else
      var decimal := Decimal(s);
      if decimal.None? || Cents(decimal.value) > MAX_SAFE_INTEGER then None else Some(ToFixed(Cents(decimal.value)))
  }

  // ---------------------------------------------------------------- the grammars are disjoint

  /** Where a grouped number has its first separator: after one to three digits, before three more. */
  lemma {:induction false} FirstGroup(s: string, sep: char) returns (i: nat)
    requires IsGrouped(s, sep)
    ensures 1 <= i <= 3 && i + 3 < |s| && AllDigits(s[..i]) && s[i] == sep && AllDigits(s[i + 1..i + 4])
    decreases |s|
  {
    var front := s[..|s| - 4];
    if |front| <= 3 && AllDigits(front) {
      i := |front|;
      assert s[i + 1..i + 4] == s[|s| - 3..];
    } else {
      i := FirstGroup(front, sep);
      assert front[..i] == s[..i] && front[i + 1..i + 4] == s[i + 1..i + 4];
    }
  }

  lemma FirstGroupOfDecimal(s: string, sep: char, point: char) returns (i: nat)
    requires IsGroupedDecimal(s, sep, point)
    ensures 1 <= i <= 3 && i + 3 < |s| && AllDigits(s[..i]) && s[i] == sep && AllDigits(s[i + 1..i + 4])
  {
    if IsGrouped(s, sep) {
      i := FirstGroup(s, sep);
    } else {
      var n :| 0 <= n < |s| && IsGrouped(s[..n], sep) && s[n] == point && IsFraction(s[n + 1..]);
      i := FirstGroup(s[..n], sep);
      assert s[..n][..i] == s[..i] && s[..n][i + 1..i + 4] == s[i + 1..i + 4];
    }
  }

  lemma PlainIsNothingElse(s: string, sep: char, point: char)
    requires IsPlain(s) && IsSeparator(sep)
    ensures !IsDecimal(s) && !IsGroupedDecimal(s, sep, point)
  {
    if IsGroupedDecimal(s, sep, point) {
      var i := FirstGroupOfDecimal(s, sep, point);
    }
  }

  lemma DecimalIsNotGrouped(s: string, sep: char, point: char)
    requires IsDecimal(s) && IsSeparator(sep)
    ensures !IsGroupedDecimal(s, sep, point)
  {
    var j :| 0 <= j < |s| && IsPlain(s[..j]) && IsSeparator(s[j]) && IsFraction(s[j + 1..]);
    if IsGroupedDecimal(s, sep, point) {
      var i := FirstGroupOfDecimal(s, sep, point);
      FirstSeparatorIsUnique(s, i, j);
    }
  }

  lemma GroupsAreNotMixed(s: string)
    requires IsGroupedDecimal(s, ',', '.')
    ensures !IsGroupedDecimal(s, '.', ',')
  {
    var i := FirstGroupOfDecimal(s, ',', '.');
    if IsGroupedDecimal(s, '.', ',') {
      var j := FirstGroupOfDecimal(s, '.', ',');
      FirstSeparatorIsUnique(s, i, j);
    }
  }

  function Chosen(a: bool, b: bool, c: bool, d: bool): set<int> {
    (if a then {0} else {}) + (if b then {1} else {}) + (if c then {2} else {}) + (if d then {3} else {})
  }

  lemma ChosenCount(a: bool, b: bool, c: bool, d: bool)
    requires !(a && b) && !(a && c) && !(a && d) && !(b && c) && !(b && d) && !(c && d)
    ensures |Chosen(a, b, c, d)| == if a || b || c || d then 1 else 0
  {
    if a {
      assert Chosen(a, b, c, d) == {0};
    } else if b {
      assert Chosen(a, b, c, d) == {1};
    } else if c {
      assert Chosen(a, b, c, d) == {2};
    } else if d {
      assert Chosen(a, b, c, d) == {3};
    } else {
      assert Chosen(a, b, c, d) == {};
    }
  }

  function GrammarsOf(s: string): set<int> {
    Chosen(IsPlain(s), IsDecimal(s), IsGroupedDecimal(s, ',', '.'), IsGroupedDecimal(s, '.', ','))
  }

  /** No number has two readings, so the order of the four branches does not matter. */
  lemma GrammarsAreDisjoint(s: string)
    ensures |GrammarsOf(s)| <= 1
    ensures Decimal(s).Some? <==> |GrammarsOf(s)| == 1
  {
    hide IsPlain;
    hide IsDecimal;
    hide IsGroupedDecimal;
    hide CommaToPoint;
    hide Remove;
    hide Chosen;
    if IsPlain(s) {
      PlainIsNothingElse(s, ',', '.');
      PlainIsNothingElse(s, '.', ',');
    } else if IsDecimal(s) {
      DecimalIsNotGrouped(s, ',', '.');
      DecimalIsNotGrouped(s, '.', ',');
    } else if IsGroupedDecimal(s, ',', '.') {
      GroupsAreNotMixed(s);
    }
    ChosenCount(IsPlain(s), IsDecimal(s), IsGroupedDecimal(s, ',', '.'), IsGroupedDecimal(s, '.', ','));
  }

  lemma CentsOfWhole(d: string)
    requires AllDigits(d)
    ensures Cents(d) == 100 * Number(d)
  {
    PointAfter(d, "");
    assert d[..|d|] == d;
  }

  function FractionCents(f: string): nat
    requires IsFraction(f)
  {
    if |f| == 1 then 10 * Number(f) else Number(f)
  }

  lemma CentsOfFraction(d: string, f: string)
    requires AllDigits(d) && IsFraction(f)
    ensures Cents(d + "." + f) == 100 * Number(d) + FractionCents(f)
  {
    PointAfter(d, f);
    var s := d + "." + f;
    assert s[..|d|] == d && s[|d| + 1..] == f;
  }

  // ---------------------------------------------------------------- what each grammar reads

  lemma {:induction false} GroupedLetters(w: string, sep: char)
    requires IsGrouped(w, sep) && IsSeparator(sep)
    ensures forall i :: 0 <= i < |w| ==> IsDigit(w[i]) || w[i] == sep
    decreases |w|
  {
    var front, end := w[..|w| - 4], w[|w| - 3..];
    if !(|front| <= 3 && AllDigits(front)) {
      GroupedLetters(front, sep);
    }
    forall i | 0 <= i < |w| ensures IsDigit(w[i]) || w[i] == sep {
      if i < |w| - 4 {
        assert w[i] == front[i];
      } else if i > |w| - 4 {
        assert w[i] == end[i - (|w| - 3)];
      }
    }
  }

  lemma GroupedIsDigits(w: string, sep: char)
    requires IsGrouped(w, sep) && IsSeparator(sep)
    ensures AllDigits(Remove(w, sep)) && forall c :: c in w ==> IsDigit(c) || c == sep
  {
    GroupedLetters(w, sep);
    RemovedLetters(w, sep);
  }

  lemma WholeReads(w: string, sep: char)
    requires IsSeparator(sep)
    ensures IsPlain(w) ==> Decimal(w) == Some(w)
    ensures IsGrouped(w, sep) ==> Decimal(w) == Some(Remove(w, sep)) && AllDigits(Remove(w, sep))
  {
    if IsGrouped(w, sep) {
      GroupedIsDigits(w, sep);
      NotSimple(w, sep, if sep == ',' then '.' else ',');
      if sep == '.' {
        NotOtherwiseGrouped(w);
        NoCommaNoChange(Remove(w, '.'));
      }
    }
  }

  lemma NotSimple(s: string, sep: char, point: char)
    requires IsGroupedDecimal(s, sep, point) && IsSeparator(sep)
    ensures !IsPlain(s) && !IsDecimal(s)
  {
    if IsPlain(s) {
      PlainIsNothingElse(s, sep, point);
    } else if IsDecimal(s) {
      DecimalIsNotGrouped(s, sep, point);
    }
  }

  lemma NotOtherwiseGrouped(s: string)
    requires IsGroupedDecimal(s, '.', ',')
    ensures !IsGroupedDecimal(s, ',', '.')
  {
    if IsGroupedDecimal(s, ',', '.') {
      GroupsAreNotMixed(s);
    }
  }

  lemma PlainFractionReads(w: string, point: char, f: string)
    requires IsPlain(w) && IsSeparator(point) && IsFraction(f)
    ensures Decimal(w + [point] + f) == Some(w + "." + f)
  {
    var s := w + [point] + f;
    assert s[..|w|] == w && s[|w|] == point && s[|w| + 1..] == f;
    assert !IsPlain(s) by { assert !IsDigit(s[|w|]); }
    assert IsDecimal(s);
    if point == ',' {
      FirstCommaBecomesPoint(w, f);
    } else {
      NoCommaNoChange(s);
    }
  }

  lemma GroupedFractionShape(w: string, sep: char, point: char, f: string)
    requires IsGrouped(w, sep) && IsFraction(f)
    ensures IsGroupedDecimal(w + [point] + f, sep, point)
  {
    hide IsGrouped;
    hide IsFraction;
    var s := w + [point] + f;
    assert s[..|w|] == w && s[|w|] == point && s[|w| + 1..] == f;
  }

  lemma RemoveBeforePoint(w: string, sep: char, point: char, f: string)
    requires IsSeparator(sep) && sep != point && IsFraction(f)
    ensures Remove(w + [point] + f, sep) == Remove(w, sep) + [point] + f
  {
    RemoveInTwo(w + [point], f, sep);
    RemoveInTwo(w, [point], sep);
    RemoveNothing([point], sep);
    RemoveNothing(f, sep);
  }

  lemma GroupedFractionReads(w: string, sep: char, point: char, f: string)
    requires IsGrouped(w, sep) && IsSeparator(sep) && IsSeparator(point) && sep != point && IsFraction(f)
    ensures Decimal(w + [point] + f) == Some(Remove(w, sep) + "." + f) && AllDigits(Remove(w, sep))
  {
    hide IsGroupedDecimal;
    hide IsGrouped;
    hide IsDecimal;
    hide Remove;
    hide CommaToPoint;
    var s := w + [point] + f;
    GroupedFractionShape(w, sep, point, f);
    RemoveBeforePoint(w, sep, point, f);
    GroupedIsDigits(w, sep);
    NotSimple(s, sep, point);
    if sep == '.' {
      NotOtherwiseGrouped(s);
      assert ',' !in Remove(w, sep);
      FirstCommaBecomesPoint(Remove(w, sep), f);
    }
  }

  // ---------------------------------------------------------------- the value is that of the digits

  /** The reading of a number without any grammar: all its digits, with one or two decimals if that
      many digits follow the last separator. */
  function ByDigits(s: string): nat {
    KeepsDigits(s);
    Number(Keep(s)) * match LastRun(s) case Some(1) => 10 case Some(2) => 1 case _ => 100
  }

  lemma KeepsBoth(w: string, d: string, point: char, f: string)
    requires AllDigits(d) && Keep(w) == d && IsSeparator(point) && IsFraction(f)
    ensures Keep(w + [point] + f) == d + f
  {
    KeepInTwo(w + [point], f);
    KeepInTwo(w, [point]);
    assert Keep([point]) == "";
    KeepAll(f);
  }

  lemma FractionByDigits(w: string, d: string, point: char, f: string)
    requires AllDigits(d) && Keep(w) == d && IsSeparator(point) && IsFraction(f)
    ensures ByDigits(w + [point] + f) == Cents(d + "." + f)
  {
    assert Pow10(1) == 10 && Pow10(2) == 100;
    hide Pow10;
    hide Keep;
    hide Number;
    hide LastRun;
    hide Cents;
    CentsOfFraction(d, f);
    LastRunOf(w, point, f);
    KeepsBoth(w, d, point, f);
    NumberInTwo(d, f);
    ScaledInTwo(Number(d), Number(f), |f| == 1);
  }

  lemma PlainByDigits(s: string)
    requires IsPlain(s)
    ensures Cents(s) == ByDigits(s)
  {
    CentsOfWhole(s);
    KeepAll(s);
    NoRun(s);
  }

  lemma DecimalByDigits(s: string)
    requires IsDecimal(s)
    ensures Decimal(s).Some? && Cents(Decimal(s).value) == ByDigits(s)
  {
    var i :| 0 <= i < |s| && IsPlain(s[..i]) && IsSeparator(s[i]) && IsFraction(s[i + 1..]);
    assert s == s[..i] + [s[i]] + s[i + 1..];
    PlainFractionReads(s[..i], s[i], s[i + 1..]);
    KeepAll(s[..i]);
    FractionByDigits(s[..i], s[..i], s[i], s[i + 1..]);
  }

  lemma GroupedByDigits(s: string, sep: char)
    requires IsGrouped(s, sep) && IsSeparator(sep)
    ensures Decimal(s).Some? && Cents(Decimal(s).value) == ByDigits(s)
  {
    WholeReads(s, sep);
    GroupedIsDigits(s, sep);
    KeepIsRemove(s, sep);
    CentsOfWhole(Remove(s, sep));
    assert s == s[..|s| - 4] + [sep] + s[|s| - 3..];
    LastRunOf(s[..|s| - 4], sep, s[|s| - 3..]);
  }

  lemma GroupedDecimalByDigits(s: string, sep: char, point: char)
    requires IsGroupedDecimal(s, sep, point) && IsSeparator(sep) && IsSeparator(point) && sep != point
    ensures Decimal(s).Some? && Cents(Decimal(s).value) == ByDigits(s)
  {
    if IsGrouped(s, sep) {
      GroupedByDigits(s, sep);
    } else {
      var i :| 0 <= i < |s| && IsGrouped(s[..i], sep) && s[i] == point && IsFraction(s[i + 1..]);
      assert s == s[..i] + [point] + s[i + 1..];
      GroupedFractionReads(s[..i], sep, point, s[i + 1..]);
      GroupedIsDigits(s[..i], sep);
      KeepIsRemove(s[..i], sep);
      FractionByDigits(s[..i], Remove(s[..i], sep), point, s[i + 1..]);
    }
  }

  /** Whenever a number is read at all, its value is that of its digits. */
  lemma ValueIsThatOfTheDigits(s: string)
    requires Decimal(s).Some?
    ensures Cents(Decimal(s).value) == ByDigits(s)
  {
    hide Cents;
    hide ByDigits;
    if IsPlain(s) {
      PlainByDigits(s);
    } else if IsDecimal(s) {
      DecimalByDigits(s);
    } else if IsGroupedDecimal(s, ',', '.') {
      GroupedDecimalByDigits(s, ',', '.');
    } else {
      GroupedDecimalByDigits(s, '.', ',');
    }
  }

  // ---------------------------------------------------------------- printing and reading again

  /** A way to print an amount: grouped or not, and with how many decimals after which point. */
  datatype Style = Style(group: Option<char>, point: char, places: nat)

  predicate IsStyle(style: Style) {
    && IsSeparator(style.point) && style.places <= 2
    && (style.group.Some? ==> IsSeparator(style.group.value) && style.group.value != style.point)
  }

  /** The style drops no decimals of the amount. */
  predicate Suits(style: Style, cents: nat) {
    (style.places == 0 ==> cents % 100 == 0) && (style.places == 1 ==> cents % 10 == 0)
  }

  function Group(digits: string, sep: char): string {
    if |digits| <= 3 then digits else Group(digits[..|digits| - 3], sep) + [sep] + digits[|digits| - 3..]
  }

  function Whole(units: nat, style: Style): string {
    if style.group.Some? then Group(Digits(units), style.group.value) else Digits(units)
  }

  function Print(cents: nat, style: Style): string {
    Whole(cents / 100, style)
    + if style.places == 0 then ""
      else [style.point] + ([DigitChar(cents / 10 % 10)] + if style.places == 1 then "" else [DigitChar(cents % 10)])
  }

  lemma {:induction false} DigitsReadBack(n: nat)
    ensures IsPlain(Digits(n)) && Number(Digits(n)) == n
    decreases n
  {
    if n >= 10 {
      DigitsReadBack(n / 10);
      assert Digits(n)[..|Digits(n)| - 1] == Digits(n / 10);
    }
  }

  lemma {:induction false} GroupIsGrouped(d: string, sep: char)
    requires IsPlain(d) && IsSeparator(sep) && |d| > 3
    ensures IsGrouped(Group(d, sep), sep)
    decreases |d|
  {
    var front, end := d[..|d| - 3], d[|d| - 3..];
    var g, s := Group(front, sep), Group(d, sep);
    assert s[..|s| - 4] == g && s[|s| - 3..] == end;
    if |front| > 3 {
      GroupIsGrouped(front, sep);
    }
  }

  lemma OneGroupMore(g: string, sep: char, end: string)
    requires sep !in end
    ensures Remove(g + [sep] + end, sep) == Remove(g, sep) + end
  {
    assert Remove([sep], sep) == "" by { assert [sep][..0] == ""; }
    RemoveInTwo(g + [sep], end, sep);
    RemoveInTwo(g, [sep], sep);
    RemoveNothing(end, sep);
    hide Remove;
    assert Remove(g, sep) + "" == Remove(g, sep);
  }

  lemma {:induction false} UngroupedAgain(d: string, sep: char)
    requires IsPlain(d) && IsSeparator(sep)
    ensures Remove(Group(d, sep), sep) == d
    decreases |d|
  {
    hide Remove;
    if |d| <= 3 {
      RemoveNothing(d, sep);
    } else {
      var front, end := d[..|d| - 3], d[|d| - 3..];
      UngroupedAgain(front, sep);
      OneGroupMore(Group(front, sep), sep, end);
      assert d == front + end;
    }
  }

  lemma GroupReadsBack(d: string, sep: char)
    requires IsPlain(d) && IsSeparator(sep)
    ensures |d| <= 3 ==> Group(d, sep) == d
    ensures |d| > 3 ==> IsGrouped(Group(d, sep), sep) && Remove(Group(d, sep), sep) == d
  {
    UngroupedAgain(d, sep);
    if |d| > 3 {
      GroupIsGrouped(d, sep);
    }
  }

  lemma NumberOfTwo(tens: nat, ones: nat)
    requires tens < 10 && ones < 10
    ensures var t, o := DigitChar(tens), DigitChar(ones);
            && IsFraction([t]) && FractionCents([t]) == 10 * tens
            && IsFraction([t, o]) && FractionCents([t, o]) == 10 * tens + ones
  {
    var t, o := DigitChar(tens), DigitChar(ones);
    assert [t][..0] == "" && [t, o][..1] == [t];
    assert Number([t]) == tens;
  }

  lemma TwoDigits(cents: nat)
    ensures cents % 100 == 10 * (cents / 10 % 10) + cents % 10
  {
  }

  lemma FractionReadsBack(cents: nat, style: Style)
    requires IsStyle(style) && Suits(style, cents) && style.places > 0
    ensures var f := [DigitChar(cents / 10 % 10)] + if style.places == 1 then "" else [DigitChar(cents % 10)];
            IsFraction(f) && FractionCents(f) == cents % 100
  {
    TwoDigits(cents);
    hide IsFraction;
    hide FractionCents;
    hide DigitChar;
    NumberOfTwo(cents / 10 % 10, cents % 10);
    var t, o := DigitChar(cents / 10 % 10), DigitChar(cents % 10);
    assert [t] + "" == [t] && [t] + [o] == [t, o];
  }

  lemma WholeReadsBack(units: nat, style: Style)
    requires IsStyle(style)
    ensures var d, w := Digits(units), Whole(units, style);
            && IsPlain(d) && Number(d) == units
            && (w == d || (style.group.Some? && IsGrouped(w, style.group.value) && Remove(w, style.group.value) == d))
  {
    DigitsReadBack(units);
    if style.group.Some? {
      GroupReadsBack(Digits(units), style.group.value);
    }
  }

  lemma FractionPrinted(cents: nat, style: Style)
    requires IsStyle(style) && Suits(style, cents) && style.places > 0
    ensures Decimal(Print(cents, style)).Some? && Cents(Decimal(Print(cents, style)).value) == cents
  {
    var d, w := Digits(cents / 100), Whole(cents / 100, style);
    var f := [DigitChar(cents / 10 % 10)] + if style.places == 1 then "" else [DigitChar(cents % 10)];
    assert Print(cents, style) == w + [style.point] + f;
    hide Print;
    WholeReadsBack(cents / 100, style);
    FractionReadsBack(cents, style);
    hide Whole;
    hide Digits;
    hide DigitChar;
    hide FractionCents;
    hide Cents;
    hide Decimal;
    hide IsGrouped;
    hide Remove;
    CentsOfFraction(d, f);
    if w == d {
      PlainFractionReads(w, style.point, f);
    } else {
      GroupedFractionReads(w, style.group.value, style.point, f);
    }
  }

  lemma PrintReadsBack(cents: nat, style: Style)
    requires IsStyle(style) && Suits(style, cents)
    ensures Decimal(Print(cents, style)).Some? && Cents(Decimal(Print(cents, style)).value) == cents
  {
    hide Decimal;
    hide Cents;
    if style.places == 0 {
      var w := Whole(cents / 100, style);
      assert Print(cents, style) == w;
      WholeReadsBack(cents / 100, style);
      WholeReads(w, if style.group.Some? then style.group.value else ',');
      CentsOfWhole(Digits(cents / 100));
    } else {
      FractionPrinted(cents, style);
    }
  }

  /** A text that consists of digits and separators and begins and ends with a digit. */
  predicate IsBody(s: string) {
    s != "" && IsDigit(s[0]) && IsDigit(s[|s| - 1]) && forall i :: 0 <= i < |s| ==> IsDigit(s[i]) || IsSeparator(s[i])
  }

  lemma FindsBody(prefix: string, body: string, trail: string, rest: string)
    requires (forall i :: 0 <= i < |prefix| ==> !IsDigit(prefix[i])) && IsBody(body)
    requires forall i :: 0 <= i < |trail| ==> IsSeparator(trail[i])
    requires rest == "" || !(IsDigit(rest[0]) || IsSeparator(rest[0]))
    ensures NumberIn(prefix + body + trail + rest) == body
  {
    var text := body + trail + rest;
    assert prefix + body + trail + rest == prefix + text;
    SkipsPrefix(prefix, text);
    SpansBody(body + trail, rest);
    TrimsTrail(body, trail);
  }

  lemma {:induction false} GroupIsBody(d: string, sep: char)
    requires IsPlain(d) && IsSeparator(sep)
    ensures IsBody(Group(d, sep))
    decreases |d|
  {
    if |d| > 3 {
      GroupIsBody(d[..|d| - 3], sep);
    }
  }

  lemma PrintIsBody(cents: nat, style: Style)
    requires IsStyle(style)
    ensures IsBody(Print(cents, style))
  {
    var w := Whole(cents / 100, style);
    assert IsBody(w) by {
      DigitsReadBack(cents / 100);
      GroupIsBody(Digits(cents / 100), if style.group.Some? then style.group.value else ',');
    }
    hide Whole;
    var tens, ones := DigitChar(cents / 10 % 10), DigitChar(cents % 10);
    assert IsDigit(tens) && IsDigit(ones);
    hide DigitChar;
  }

  /** An amount printed in any style, after any text without digits and before any separators and
      then any text that does not run on, is read back as that amount with two decimals. */
  lemma PrintedAmountsAreReadBack(cents: nat, style: Style, prefix: string, trail: string, rest: string)
    requires cents < EXACT_BELOW && IsStyle(style) && Suits(style, cents)
    requires forall i :: 0 <= i < |prefix| ==> !IsDigit(prefix[i])
    requires forall i :: 0 <= i < |trail| ==> IsSeparator(trail[i])
    requires rest == "" || !(IsDigit(rest[0]) || IsSeparator(rest[0]))
    ensures NormalizeAmount(prefix + Print(cents, style) + trail + rest) == Some(ToFixed(cents))
  {
    PrintIsBody(cents, style);
    FindsBody(prefix, Print(cents, style), trail, rest);
    PrintReadsBack(cents, style);
  }

  /** A printed amount is read back if and only if its cents are a safe integer: beyond that it is none. */
  lemma OnlySafeAmountsAreRead(cents: nat, style: Style, prefix: string, trail: string, rest: string)
    requires IsStyle(style) && Suits(style, cents)
    requires forall i :: 0 <= i < |prefix| ==> !IsDigit(prefix[i])
    requires forall i :: 0 <= i < |trail| ==> IsSeparator(trail[i])
    requires rest == "" || !(IsDigit(rest[0]) || IsSeparator(rest[0]))
    ensures NormalizeAmount(prefix + Print(cents, style) + trail + rest)
         == if cents <= 9_007_199_254_740_991 then Some(ToFixed(cents)) else None
  {
    PrintIsBody(cents, style);
    FindsBody(prefix, Print(cents, style), trail, rest);
    PrintReadsBack(cents, style);
    hide Print;
    hide Decimal;
    hide Cents;
    hide NumberIn;
    hide ToFixed;
  }

  /** A normalised amount is a fixed point, and different amounts have different normal forms. */
  lemma NormalFormsAreFaithful(a: nat, b: nat)
    requires a < EXACT_BELOW && b < EXACT_BELOW
    ensures NormalizeAmount(ToFixed(a)) == Some(ToFixed(a))
    ensures ToFixed(a) == ToFixed(b) <==> a == b
  {
    var style := Style(None, '.', 2);
    assert ToFixed(a) == Print(a, style) && ToFixed(b) == Print(b, style);
    PrintedAmountsAreReadBack(a, style, "", "", "");
    assert "" + Print(a, style) + "" + "" == Print(a, style);
    PrintReadsBack(a, style);
    PrintReadsBack(b, style);
  }
}
