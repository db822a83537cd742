/** The public reference of an advertising click: 110 random bits in Base32, made with JavaScript's
    32-bit operators.

    The loop of the program keeps its bits in a number that grows beyond 32 bits and wraps around. It
    returns the first symbols of the encoding that the standard defines all the same, and two references
    are equal only if the bits that they show are. */
module References {
  import opened Options
  import opened Int32Operators

  const ALPHABET: string := "ABCDEFGHIJKLMNOPQRSTUVWXYZ234567"

  const SYMBOLS := 22

  const BYTES := 14

  // ---------------------------------------------------------------- Base32, section 6 of RFC 4648

  /** Bits from the most significant one on. */
  type Bit = x: int | 0 <= x < 2

  function BitsOf(x: nat, n: nat): (bits: seq<Bit>)
    ensures |bits| == n
  {
    if n == 0 then [] else BitsOf(x / 2, n - 1) + [x % 2]
  }

  function ByteBits(b: Byte): (bits: seq<Bit>)
    ensures |bits| == 8
  {
    BitsOf(b, 8)
  }

  function Bits(bytes: seq<Byte>): (bits: seq<Bit>)
    ensures |bits| == 8 * |bytes|
  {
    if bytes == [] then [] else Bits(bytes[..|bytes| - 1]) + ByteBits(bytes[|bytes| - 1])
  }

  /** The number that bits stand for, the most significant first. */
  function Value(bits: seq<Bit>): nat {
    if bits == [] then 0 else 2 * Value(bits[..|bits| - 1]) + bits[|bits| - 1]
  }

  function Symbol(bits: seq<Bit>): char
    requires |bits| == 5
  {
    ValueFits(bits);
    ALPHABET[Value(bits)]
  }

  function Zeros(n: nat): (bits: seq<Bit>)
    ensures |bits| == n
  {
    if n == 0 then [] else Zeros(n - 1) + [0]
  }

  /** Five bits a symbol; the last group is filled up with zero bits. */
  function Symbols(bits: seq<Bit>): string {
    if bits == [] then ""
    else if |bits| < 5 then [Symbol(bits + Zeros(5 - |bits|))]
    else [Symbol(bits[..5])] + Symbols(bits[5..])
  }

  function Padding(n: nat): string
    requires n <= 8
  {
    if n % 8 == 0 then "" else "=" + Padding(n - 1)
  }

  function Base32(bytes: seq<Byte>): string {
    var symbols := Symbols(Bits(bytes));
    symbols + Padding((8 - |symbols| % 8) % 8)
  }

  lemma {:induction false} ValueFits(bits: seq<Bit>)
    ensures Value(bits) < Pow2(|bits|)
  {
    if bits != [] {
      ValueFits(bits[..|bits| - 1]);
    }
  }

  lemma {:induction false} ValueInTwo(a: seq<Bit>, b: seq<Bit>)
    ensures Value(a + b) == Value(a) * Pow2(|b|) + Value(b)
    decreases |b|
  {
    if b == [] {
      assert a + b == a;
    } else {
      var front, last := b[..|b| - 1], b[|b| - 1];
      ValueInTwo(a, front);
      assert (a + b)[..|a + b| - 1] == a + front;
      assert Value(a) * (2 * Pow2(|front|)) == 2 * (Value(a) * Pow2(|front|));
    }
  }

  lemma {:induction false} ValueIsInjective(a: seq<Bit>, b: seq<Bit>)
    requires |a| == |b| && Value(a) == Value(b)
    ensures a == b
  {
    if a != [] {
      ValueIsInjective(a[..|a| - 1], b[..|b| - 1]);
      assert a == a[..|a| - 1] + [a[|a| - 1]];
      assert b == b[..|b| - 1] + [b[|b| - 1]];
    }
  }

  lemma {:induction false} ValueOfBits(x: nat, n: nat)
    requires x < Pow2(n)
    ensures Value(BitsOf(x, n)) == x
  {
    if n > 0 {
      ValueOfBits(x / 2, n - 1);
      assert BitsOf(x, n)[..n - 1] == BitsOf(x / 2, n - 1);
    }
  }

  lemma ValueOfByte(b: Byte)
    ensures Value(ByteBits(b)) == b
  {
    assert Pow2(8) == 256 by { SmallPowers(); }
    hide Pow2;
    ValueOfBits(b, 8);
  }

  /** The k-th symbol of an encoding is that of its k-th group of five bits. */
  lemma {:induction false} SymbolAt(bits: seq<Bit>, k: nat)
    requires 5 * k + 5 <= |bits|
    ensures k < |Symbols(bits)| && Symbols(bits)[k] == Symbol(bits[5 * k..5 * k + 5])
    decreases k
  {
    if k > 0 {
      SymbolAt(bits[5..], k - 1);
      assert bits[5..][5 * (k - 1)..5 * (k - 1) + 5] == bits[5 * k..5 * k + 5];
    }
  }

  // ---------------------------------------------------------------- generating

  /** What the generator must return. */
  function Reference(bytes: seq<Byte>): string
    requires |bytes| == BYTES
  {
    EncodingIsLongEnough(bytes);
    "UC-" + Base32(bytes)[..SYMBOLS]
  }

  lemma EncodingIsLongEnough(bytes: seq<Byte>)
    requires |bytes| == BYTES
    ensures |Symbols(Bits(bytes))| >= SYMBOLS && |Base32(bytes)| >= SYMBOLS
  {
    SymbolAt(Bits(bytes), SYMBOLS - 1);
  }

  /** `value` holds the bits not yet written in its lowest places; what is above them has been written
      or has wrapped around. */
  ghost predicate Holds(value: int, rest: seq<Bit>) {
    |rest| <= 12 && ToUint32(value) % Pow2(|rest|) == Value(rest)
  }

  lemma HoldsOneMoreByte(value: int, rest: seq<Bit>, b: Byte)
    requires |rest| < 5 && Holds(value, rest)
    ensures Holds(Or(ShiftLeft(value, 8), b), rest + ByteBits(b))
  {
    hide Or;
    hide ShiftLeft;
    hide Value;
    hide Pow2;
    hide ToUint32;
    ShiftedIn(value, b);
    ValueInTwo(rest, ByteBits(b));
    ValueOfByte(b);
    assert Pow2(8) == 256 by { SmallPowers(); }
    ByteBelow(ToUint32(value), |rest|, b);
  }

  lemma HoldsOneSymbolLess(value: int, rest: seq<Bit>)
    requires 5 <= |rest| && Holds(value, rest)
    ensures And(ShiftRightUnsigned(value, |rest| - 5), 31) == Value(rest[..5])
    ensures Holds(value, rest[5..])
  {
    var k := |rest| - 5;
    FiveBits(value, k);
    assert rest == rest[..5] + rest[5..];
    ValueInTwo(rest[..5], rest[5..]);
    ValueFits(rest[..5]);
    ValueFits(rest[5..]);
    SmallPowers();
    TakeTopFive(ToUint32(value), k, Value(rest[..5]), Value(rest[5..]));
  }

  method GenerateReference(bytes: seq<Byte>) returns (reference: string)
    requires |bytes| == BYTES
    ensures reference == Reference(bytes)
  {
    var bits := 0;
    var value := 0;
    var output := "";
    var i := 0;
    while i < |bytes|
      invariant i <= |bytes|
      invariant Written(bytes[..i], output, bits) && bits < 5
      invariant Holds(value, Bits(bytes[..i])[5 * |output|..])
    {
      var byte := bytes[i];
      OneMoreByte(bytes, i, output, bits, value);
      value := Or(ShiftLeft(value, 8), byte);
      bits := bits + 8;
      while bits >= 5 && |output| < SYMBOLS
        invariant bits <= 12
        invariant Written(bytes[..i + 1], output, bits)
        invariant Holds(value, Bits(bytes[..i + 1])[5 * |output|..])
      {
        var symbol := And(ShiftRightUnsigned(value, bits - 5), 31);
        OneMoreSymbol(bytes[..i + 1], output, bits, value);
        output := output + [ALPHABET[symbol]];
        bits := bits - 5;
      }
      i := i + 1;
    }
    assert bytes[..i] == bytes;
    AllWritten(bytes, output, bits);
    reference := "UC-" + output;
  }

  /** The symbols written so far are the encoding's, and `bits` bits of what has been read are left. */
  ghost predicate Written(bytes: seq<Byte>, output: string, bits: nat) {
    && |output| <= SYMBOLS && 5 * |output| + bits == 8 * |bytes|
    && forall k :: 0 <= k < |output| ==> output[k] == Symbol(Bits(bytes)[5 * k..5 * k + 5])
  }

  lemma OneMoreByte(bytes: seq<Byte>, i: nat, output: string, bits: nat, value: int)
    requires i < |bytes| && Written(bytes[..i], output, bits) && bits < 5
    requires Holds(value, Bits(bytes[..i])[5 * |output|..])
    ensures Written(bytes[..i + 1], output, bits + 8)
    ensures Holds(Or(ShiftLeft(value, 8), bytes[i]), Bits(bytes[..i + 1])[5 * |output|..])
  {
    hide Holds;
    hide Or;
    var before, after := Bits(bytes[..i]), Bits(bytes[..i + 1]);
    assert bytes[..i + 1][..i] == bytes[..i];
    assert after == before + ByteBits(bytes[i]);
    HoldsOneMoreByte(value, before[5 * |output|..], bytes[i]);
    assert after[5 * |output|..] == before[5 * |output|..] + ByteBits(bytes[i]);
    forall k | 0 <= k < |output| ensures after[5 * k..5 * k + 5] == before[5 * k..5 * k + 5] {
    }
  }

  lemma OneMoreSymbol(bytes: seq<Byte>, output: string, bits: nat, value: int)
    requires 5 <= bits && |output| < SYMBOLS && Written(bytes, output, bits)
    requires Holds(value, Bits(bytes)[5 * |output|..])
    ensures var symbol := And(ShiftRightUnsigned(value, bits - 5), 31);
            && 0 <= symbol < 32 && Written(bytes, output + [ALPHABET[symbol]], bits - 5)
            && Holds(value, Bits(bytes)[5 * |output| + 5..])
  {
    hide Holds;
    hide And;
    var rest := Bits(bytes)[5 * |output|..];
    HoldsOneSymbolLess(value, rest);
    ValueFits(rest[..5]);
    assert Pow2(5) == 32 by { SmallPowers(); }
    assert rest[..5] == Bits(bytes)[5 * |output|..5 * |output| + 5];
    assert rest[5..] == Bits(bytes)[5 * |output| + 5..];
  }

  lemma AllWritten(bytes: seq<Byte>, output: string, bits: nat)
    requires |bytes| == BYTES && Written(bytes, output, bits) && bits < 5
    ensures "UC-" + output == Reference(bytes)
  {
    EncodingIsLongEnough(bytes);
    forall k | 0 <= k < SYMBOLS ensures output[k] == Base32(bytes)[k] {
      SymbolAt(Bits(bytes), k);
    }
  }

  // ---------------------------------------------------------------- collisions

  lemma AlphabetIsInjective(a: nat, b: nat)
    requires a < 32 && b < 32 && ALPHABET[a] == ALPHABET[b]
    ensures a == b
  {
    assert forall k :: 0 <= k < 26 ==> ALPHABET[k] as int == 'A' as int + k;
    assert forall k :: 26 <= k < 32 ==> ALPHABET[k] as int == '2' as int + k - 26;
  }

  lemma SymbolIsInjective(a: seq<Bit>, b: seq<Bit>)
    requires |a| == |b| == 5 && Symbol(a) == Symbol(b)
    ensures a == b
  {
    ValueFits(a);
    ValueFits(b);
    assert Pow2(5) == 32 by { SmallPowers(); }
    AlphabetIsInjective(Value(a), Value(b));
    ValueIsInjective(a, b);
  }

  /** Two clicks get the same reference if and only if their random bytes agree on the first 110 bits;
      the last two bits are the only ones not used. */
  lemma ReferencesCollideIff(a: seq<Byte>, b: seq<Byte>)
    requires |a| == |b| == BYTES
    ensures Reference(a) == Reference(b) <==> Bits(a)[..5 * SYMBOLS] == Bits(b)[..5 * SYMBOLS]
  {
    EncodingIsLongEnough(a);
    EncodingIsLongEnough(b);
    if Reference(a) == Reference(b) {
      forall i | 0 <= i < 5 * SYMBOLS ensures Bits(a)[i] == Bits(b)[i] {
        var k := i / 5;
        SameSymbol(a, b, k);
        assert Bits(a)[5 * k..5 * k + 5][i % 5] == Bits(b)[5 * k..5 * k + 5][i % 5];
      }
    }
    if Bits(a)[..5 * SYMBOLS] == Bits(b)[..5 * SYMBOLS] {
      forall k | 0 <= k < SYMBOLS ensures Base32(a)[k] == Base32(b)[k] {
        SymbolAt(Bits(a), k);
        SymbolAt(Bits(b), k);
        assert Bits(a)[5 * k..5 * k + 5] == Bits(a)[..5 * SYMBOLS][5 * k..5 * k + 5];
        assert Bits(b)[5 * k..5 * k + 5] == Bits(b)[..5 * SYMBOLS][5 * k..5 * k + 5];
      }
      assert Base32(a)[..SYMBOLS] == Base32(b)[..SYMBOLS];
    }
  }

  lemma SameSymbol(a: seq<Byte>, b: seq<Byte>, k: nat)
    requires |a| == |b| == BYTES && k < SYMBOLS && Reference(a) == Reference(b)
    ensures Bits(a)[5 * k..5 * k + 5] == Bits(b)[5 * k..5 * k + 5]
  {
    EncodingIsLongEnough(a);
    EncodingIsLongEnough(b);
    SymbolAt(Bits(a), k);
    SymbolAt(Bits(b), k);
    assert Reference(a)[3 + k] == Base32(a)[k] && Reference(b)[3 + k] == Base32(b)[k];
    SymbolIsInjective(Bits(a)[5 * k..5 * k + 5], Bits(b)[5 * k..5 * k + 5]);
  }
}
