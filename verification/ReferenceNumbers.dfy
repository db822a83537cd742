/** A reference, read as a number in base 32, is the number that its random bytes spell, without the
    last two bits; and every text that is extracted as a reference is the reference of some bytes. */
module ReferenceNumbers {
  import opened Options
  import opened Int32Operators
  import opened References
  import opened ReferenceSearch

  /** Table 3 of RFC 4648: the letters stand for 0 to 25, the digits 2 to 7 for 26 to 31. */
  function DigitOf(c: char): nat {
    if 'A' <= c <= 'Z' then c as int - 'A' as int
    else if '2' <= c <= '7' then 26 + (c as int - '2' as int)
    else 0
  }

  function Digits(s: string): nat {
    if s == "" then 0 else 32 * Digits(s[..|s| - 1]) + DigitOf(s[|s| - 1])
  }

  /** The most significant byte first. */
  function BigEndian(bytes: seq<Byte>): nat {
    if bytes == [] then 0 else 256 * BigEndian(bytes[..|bytes| - 1]) + bytes[|bytes| - 1]
  }

  lemma ValueOneMore(bits: seq<Bit>, b: Byte)
    ensures Value(bits + ByteBits(b)) == 256 * Value(bits) + b
  {
    hide Value;
    hide ByteBits;
    ValueInTwo(bits, ByteBits(b));
    ValueOfByte(b);
    assert Pow2(8) == 256 by { SmallPowers(); }
  }

  lemma {:induction false} ValueIsBigEndian(bytes: seq<Byte>)
    ensures Value(Bits(bytes)) == BigEndian(bytes)
  {
    hide ByteBits;
    if bytes != [] {
      ValueIsBigEndian(bytes[..|bytes| - 1]);
      ValueOneMore(Bits(bytes[..|bytes| - 1]), bytes[|bytes| - 1]);
    }
  }

  lemma DigitOfAlphabet(v: nat)
    requires v < 32
    ensures DigitOf(ALPHABET[v]) == v && IsSymbol(ALPHABET[v])
  {
    assert forall k :: 0 <= k < 26 ==> ALPHABET[k] as int == 'A' as int + k;
    assert forall k :: 26 <= k < 32 ==> ALPHABET[k] as int == '2' as int + k - 26;
  }

  lemma DigitOfGroup(bits: seq<Bit>)
    requires |bits| == 5
    ensures DigitOf(Symbol(bits)) == Value(bits)
  {
    ValueFits(bits);
    assert Pow2(5) == 32 by { SmallPowers(); }
    DigitOfAlphabet(Value(bits));
  }

  /** The first `k` symbols of an encoding, read as digits, are the number of the first `5 * k` bits. */
  lemma {:induction false} DigitsAreBits(bits: seq<Bit>, k: nat)
    requires 5 * k <= |bits|
    ensures k <= |Symbols(bits)| && Digits(Symbols(bits)[..k]) == Value(bits[..5 * k])
    decreases k
  {
    hide Symbols;
    hide Symbol;
    if k > 0 {
      DigitsAreBits(bits, k - 1);
      SymbolAt(bits, k - 1);
      var front, group := bits[..5 * (k - 1)], bits[5 * (k - 1)..5 * k];
      DigitOfGroup(group);
      ValueInTwo(front, group);
      assert Pow2(5) == 32 by { SmallPowers(); }
      assert bits[..5 * k] == front + group;
      assert Symbols(bits)[..k][..k - 1] == Symbols(bits)[..k - 1];
    }
  }

  lemma WithoutTheLastTwo(bits: seq<Bit>)
    requires |bits| == 112
    ensures Value(bits[..110]) == Value(bits) / 4
  {
    ValueInTwo(bits[..110], bits[110..]);
    ValueFits(bits[110..]);
    assert Pow2(2) == 4 by { SmallPowers(); }
    assert bits == bits[..110] + bits[110..];
  }

  /** A reference is UC- and 22 symbols; read as a number in base 32 they are the number that the
      fourteen bytes spell, without its last two bits. */
  lemma ReferenceIsTheNumber(bytes: seq<Byte>)
    requires |bytes| == 14
    ensures var r := Reference(bytes);
            && |r| == 25 && r[..3] == "UC-" && (forall k :: 3 <= k < 25 ==> IsSymbol(r[k]))
            && Digits(r[3..]) == BigEndian(bytes) / 4
  {
    ReferenceIsWellFormed(bytes);
    EncodingIsLongEnough(bytes);
    hide Symbols;
    hide Value;
    hide Bits;
    DigitsAreBits(Bits(bytes), 22);
    WithoutTheLastTwo(Bits(bytes));
    ValueIsBigEndian(bytes);
    assert Reference(bytes)[3..] == Base32(bytes)[..22] == Symbols(Bits(bytes))[..22];
  }

  // ---------------------------------------------------------------- every such text is a reference

  function BytesOf(n: nat, count: nat): (bytes: seq<Byte>)
    ensures |bytes| == count
  {
    if count == 0 then [] else BytesOf(n / 256, count - 1) + [n % 256]
  }

  lemma {:induction false} BytesSpellIt(n: nat, count: nat)
    requires n < Pow2(8 * count)
    ensures BigEndian(BytesOf(n, count)) == n
  {
    if count > 0 {
      EightMore(8 * (count - 1));
      BytesSpellIt(n / 256, count - 1);
      assert BytesOf(n, count)[..count - 1] == BytesOf(n / 256, count - 1);
    }
  }

  lemma EightMore(n: nat)
    ensures Pow2(n + 8) == 256 * Pow2(n)
  {
    assert Pow2(n + 2) == 4 * Pow2(n) && Pow2(n + 4) == 4 * Pow2(n + 2);
    assert Pow2(n + 6) == 4 * Pow2(n + 4) && Pow2(n + 8) == 4 * Pow2(n + 6);
  }

  lemma FiveMore(n: nat)
    ensures Pow2(n + 5) == 32 * Pow2(n)
  {
    assert Pow2(n + 2) == 4 * Pow2(n) && Pow2(n + 4) == 4 * Pow2(n + 2);
  }

  predicate AllSymbols(s: string) {
    forall k :: 0 <= k < |s| ==> IsSymbol(s[k])
  }

  lemma {:induction false} DigitsFit(s: string)
    requires AllSymbols(s)
    ensures Digits(s) < Pow2(5 * |s|)
  {
    if s != "" {
      DigitsFit(s[..|s| - 1]);
      FiveMore(5 * (|s| - 1));
      assert IsSymbol(s[|s| - 1]);
    }
  }

  lemma {:induction false} DigitsAreInjective(a: string, b: string)
    requires AllSymbols(a) && AllSymbols(b) && |a| == |b| && Digits(a) == Digits(b)
    ensures a == b
  {
    if a != "" {
      var x, y := a[|a| - 1], b[|b| - 1];
      assert IsSymbol(x) && IsSymbol(y);
      assert DigitOf(x) < 32 && DigitOf(y) < 32;
      DigitsAreInjective(a[..|a| - 1], b[..|b| - 1]);
      assert a == a[..|a| - 1] + [x] && b == b[..|b| - 1] + [y];
    }
  }

  lemma SymbolsOfSomeBytes(s: string) returns (bytes: seq<Byte>)
    requires |s| == 22 && AllSymbols(s)
    ensures |bytes| == 14 && Reference(bytes) == "UC-" + s
  {
    DigitsFit(s);
    assert Pow2(112) == 4 * Pow2(110);
    hide Pow2;
    bytes := BytesOf(4 * Digits(s), 14);
    BytesSpellIt(4 * Digits(s), 14);
    ReferenceIsTheNumber(bytes);
    hide Reference;
    var r := Reference(bytes);
    DigitsAreInjective(r[3..], s);
    assert r == r[..3] + r[3..];
  }

  /** Whatever is extracted from a message could have been generated: it is the reference of some bytes. */
  lemma ExtractedCouldBeGenerated(message: string)
    requires ExtractReference(message).Some?
    ensures exists bytes: seq<Byte> :: |bytes| == 14 && Reference(bytes) == ExtractReference(message).value
  {
    var k := FindFrom(message, 0).value;
    var r := message[k..k + LENGTH];
    var s := r[3..];
    assert r[..3] == message[k..k + 3];
    var bytes := SymbolsOfSomeBytes(s);
    assert r == r[..3] + s;
  }
}
