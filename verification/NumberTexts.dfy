/** Texts of digits, points and commas: what removing separators, replacing the first comma, keeping
    the digits and reading a number do to a text put together from others.

    These are facts about texts; which texts are amounts of money, and of how much, is said in
    `Amounts`.

    All functions work on characters; a digit is one of the ten ASCII digits. */
module NumberTexts {
  import opened Options

  predicate IsDigit(c: char) {
    '0' <= c <= '9'
  }

  predicate IsSeparator(c: char) {
    c == '.' || c == ','
  }

  predicate AllDigits(s: string) {
    forall i :: 0 <= i < |s| ==> IsDigit(s[i])
  }

  function SkipToDigit(raw: string): (rest: string)
    ensures rest != "" ==> IsDigit(rest[0])
  {
    if raw == "" || IsDigit(raw[0]) then raw else SkipToDigit(raw[1..])
  }

  /** The longest prefix of digits and separators. */
  function Span(raw: string): string {
    if raw != "" && (IsDigit(raw[0]) || IsSeparator(raw[0])) then [raw[0]] + Span(raw[1..]) else ""
  }

  function TrimSeparators(s: string): string {
    if s != "" && IsSeparator(s[|s| - 1]) then TrimSeparators(s[..|s| - 1]) else s
  }

  function Number(s: string): nat
    requires AllDigits(s)
  {
    if s == "" then 0 else 10 * Number(s[..|s| - 1]) + (s[|s| - 1] as int - '0' as int)
  }

  function Remove(s: string, c: char): string {
    if s == "" then "" else Remove(s[..|s| - 1], c) + if s[|s| - 1] == c then "" else [s[|s| - 1]]
  }

  /** `replace(',', '.')`: the first comma only. */
  function CommaToPoint(s: string): string {
    if s == "" then "" else if s[0] == ',' then "." + s[1..] else [s[0]] + CommaToPoint(s[1..])
  }

  function PointAt(s: string): (i: nat)
    ensures i <= |s| && (i < |s| ==> s[i] == '.') && forall j :: 0 <= j < i ==> s[j] != '.'
  {
    if s == "" || s[0] == '.' then 0 else 1 + PointAt(s[1..])
  }

  function DigitChar(d: nat): char
    requires d < 10
  {
    '0' + d as char
  }

  function Digits(n: nat): string {
    if n < 10 then [DigitChar(n)] else Digits(n / 10) + [DigitChar(n % 10)]
  }

  lemma FirstSeparatorIsUnique(s: string, i: nat, j: nat)
    requires i < |s| && j < |s| && AllDigits(s[..i]) && AllDigits(s[..j]) && !IsDigit(s[i]) && !IsDigit(s[j])
    ensures i == j
  {
    DigitsBelow(s, i);
    DigitsBelow(s, j);
  }

  lemma DigitsBelow(s: string, i: nat)
    requires i <= |s| && AllDigits(s[..i])
    ensures forall k :: 0 <= k < i ==> IsDigit(s[k])
  {
    assert forall k :: 0 <= k < i ==> s[..i][k] == s[k];
  }

  lemma {:induction false} RemoveInTwo(a: string, b: string, c: char)
    ensures Remove(a + b, c) == Remove(a, c) + Remove(b, c)
    decreases |b|
  {
    if b == "" {
      assert a + b == a;
    } else {
      RemoveInTwo(a, b[..|b| - 1], c);
      assert (a + b)[..|a + b| - 1] == a + b[..|b| - 1];
    }
  }

  lemma {:induction false} RemoveNothing(s: string, c: char)
    requires c !in s
    ensures Remove(s, c) == s
    decreases |s|
  {
    if s != "" {
      RemoveNothing(s[..|s| - 1], c);
      assert s == s[..|s| - 1] + [s[|s| - 1]];
    }
  }

  lemma {:induction false} FirstCommaBecomesPoint(a: string, b: string)
    requires ',' !in a
    ensures CommaToPoint(a + "," + b) == a + "." + b
    decreases |a|
  {
    if a != "" {
      FirstCommaBecomesPoint(a[1..], b);
      assert (a + "," + b)[1..] == a[1..] + "," + b;
      assert a + "." + b == [a[0]] + (a[1..] + "." + b);
    } else {
      assert (a + "," + b)[1..] == b;
    }
  }

  lemma {:induction false} NoCommaNoChange(a: string)
    requires ',' !in a
    ensures CommaToPoint(a) == a
    decreases |a|
  {
    if a != "" {
      NoCommaNoChange(a[1..]);
    }
  }

  lemma {:induction false} PointAfter(a: string, b: string)
    requires '.' !in a
    ensures PointAt(a) == |a| && PointAt(a + "." + b) == |a|
    decreases |a|
  {
    if a != "" {
      PointAfter(a[1..], b);
      assert (a + "." + b)[1..] == a[1..] + "." + b;
    }
  }

  lemma {:induction false} RemovedLetters(w: string, sep: char)
    requires forall i :: 0 <= i < |w| ==> IsDigit(w[i]) || w[i] == sep
    ensures AllDigits(Remove(w, sep))
    decreases |w|
  {
    if w != "" {
      RemovedLetters(w[..|w| - 1], sep);
    }
  }

  function Keep(s: string): string {
    if s == "" then "" else Keep(s[..|s| - 1]) + if IsDigit(s[|s| - 1]) then [s[|s| - 1]] else ""
  }

  function Pow10(n: nat): nat {
    if n == 0 then 1 else 10 * Pow10(n - 1)
  }

  lemma {:induction false} KeepsDigits(s: string)
    ensures AllDigits(Keep(s))
  {
    if s != "" {
      KeepsDigits(s[..|s| - 1]);
    }
  }

  lemma {:induction false} KeepInTwo(a: string, b: string)
    ensures Keep(a + b) == Keep(a) + Keep(b)
    decreases |b|
  {
    if b == "" {
      assert a + b == a;
    } else {
      KeepInTwo(a, b[..|b| - 1]);
      assert (a + b)[..|a + b| - 1] == a + b[..|b| - 1];
    }
  }

  lemma {:induction false} KeepAll(s: string)
    requires AllDigits(s)
    ensures Keep(s) == s
    decreases |s|
  {
    if s != "" {
      KeepAll(s[..|s| - 1]);
      assert s == s[..|s| - 1] + [s[|s| - 1]];
    }
  }

  lemma {:induction false} KeepIsRemove(s: string, sep: char)
    requires IsSeparator(sep) && forall c :: c in s ==> IsDigit(c) || c == sep
    ensures Keep(s) == Remove(s, sep)
    decreases |s|
  {
    if s != "" {
      KeepIsRemove(s[..|s| - 1], sep);
    }
  }

  lemma TenTimes(n: nat, power: nat)
    ensures n * (10 * power) == 10 * (n * power)
  {
  }

  lemma {:induction false} NumberInTwo(a: string, b: string)
    requires AllDigits(a) && AllDigits(b)
    ensures AllDigits(a + b) && Number(a + b) == Number(a) * Pow10(|b|) + Number(b)
    decreases |b|
  {
    if b == "" {
      assert a + b == a;
    } else {
      NumberInTwo(a, b[..|b| - 1]);
      assert (a + b)[..|a + b| - 1] == a + b[..|b| - 1];
      TenTimes(Number(a), Pow10(|b| - 1));
    }
  }

  /** The digits after the last separator, if there is one. */
  function LastRun(s: string): Option<nat> {
    if s == "" then None
    else if IsSeparator(s[|s| - 1]) then Some(0)
    else
      var front := LastRun(s[..|s| - 1]);
      if front.Some? then Some(front.value + 1) else None
  }

  lemma {:induction false} LastRunOf(a: string, sep: char, b: string)
    requires IsSeparator(sep) && AllDigits(b)
    ensures LastRun(a + [sep] + b) == Some(|b|)
    decreases |b|
  {
    var s := a + [sep] + b;
    if b == "" {
      assert s[|s| - 1] == sep;
    } else {
      LastRunOf(a, sep, b[..|b| - 1]);
      assert s[..|s| - 1] == a + [sep] + b[..|b| - 1];
    }
  }

  lemma {:induction false} NoRun(s: string)
    requires AllDigits(s)
    ensures LastRun(s) == None
    decreases |s|
  {
    if s != "" {
      NoRun(s[..|s| - 1]);
    }
  }

  lemma ScaledInTwo(a: nat, b: nat, one: bool)
    ensures (a * (if one then 10 else 100) + b) * (if one then 10 else 1) == 100 * a + if one then 10 * b else b
  {
  }

  lemma {:induction false} SkipsPrefix(prefix: string, rest: string)
    requires (forall i :: 0 <= i < |prefix| ==> !IsDigit(prefix[i])) && rest != "" && IsDigit(rest[0])
    ensures SkipToDigit(prefix + rest) == rest
    decreases |prefix|
  {
    if prefix == "" {
      assert prefix + rest == rest;
    } else {
      assert (prefix + rest)[1..] == prefix[1..] + rest;
      SkipsPrefix(prefix[1..], rest);
    }
  }

  lemma {:induction false} SpansBody(body: string, rest: string)
    requires forall i :: 0 <= i < |body| ==> IsDigit(body[i]) || IsSeparator(body[i])
    requires rest == "" || !(IsDigit(rest[0]) || IsSeparator(rest[0]))
    ensures Span(body + rest) == body
    decreases |body|
  {
    if body == "" {
      assert body + rest == rest;
    } else {
      assert (body + rest)[1..] == body[1..] + rest;
      SpansBody(body[1..], rest);
    }
  }

  lemma {:induction false} TrimsTrail(body: string, trail: string)
    requires body != "" && IsDigit(body[|body| - 1]) && forall i :: 0 <= i < |trail| ==> IsSeparator(trail[i])
    ensures TrimSeparators(body + trail) == body
    decreases |trail|
  {
    if trail == "" {
      assert body + trail == body;
    } else {
      assert (body + trail)[..|body + trail| - 1] == body + trail[..|trail| - 1];
      TrimsTrail(body, trail[..|trail| - 1]);
    }
  }
}
