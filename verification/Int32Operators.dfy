/** JavaScript's bitwise operators, written out on unbounded integers.

    Operands are taken modulo two to the 32, results are signed 32-bit integers, and only `>>>` yields
    an unsigned one.

    The lemmas say what `<< 8`, `| byte`, `>>>` and `& 31` do to the bits of a number that has grown
    beyond 32 bits and wrapped around: the lowest bits stay right. */
module Int32Operators {
  type Byte = x: int | 0 <= x < 256

  const TWO_TO_31 := 0x8000_0000
  const TWO_TO_32 := 0x1_0000_0000

  function ToUint32(x: int): nat {
    x % TWO_TO_32
  }

  function ToInt32(x: int): int {
    if ToUint32(x) >= TWO_TO_31 then ToUint32(x) - TWO_TO_32 else ToUint32(x)
  }

  function Pow2(n: nat): (p: nat)
    ensures p > 0
  {
    if n == 0 then 1 else 2 * Pow2(n - 1)
  }

  function OrBits(a: nat, b: nat, n: nat): nat {
    if n == 0 then 0 else (if a % 2 == 1 || b % 2 == 1 then 1 else 0) + 2 * OrBits(a / 2, b / 2, n - 1)
  }

  function AndBits(a: nat, b: nat, n: nat): nat {
    if n == 0 then 0 else (if a % 2 == 1 && b % 2 == 1 then 1 else 0) + 2 * AndBits(a / 2, b / 2, n - 1)
  }

  function Or(a: int, b: int): int {
    ToInt32(OrBits(ToUint32(a), ToUint32(b), 32))
  }

  function And(a: int, b: int): int {
    ToInt32(AndBits(ToUint32(a), ToUint32(b), 32))
  }

  function ShiftLeft(a: int, k: nat): int {
    ToInt32(a * Pow2(k))
  }

  /** `>>>` */
  function ShiftRightUnsigned(a: int, k: nat): int {
    Quotient(ToUint32(a), Pow2(k))
  }

  function Quotient(a: nat, d: nat): nat {
    if d == 0 then 0 else a / d
  }

  lemma {:induction false} OrWithZero(a: nat, n: nat)
    requires a < Pow2(n)
    ensures OrBits(a, 0, n) == a
  {
    if n > 0 {
      OrWithZero(a / 2, n - 1);
    }
  }

  lemma {:induction false} OrOfDisjoint(a: nat, b: nat, low: nat, n: nat)
    requires low <= n && a < Pow2(n - low) && b < Pow2(low)
    ensures OrBits(a * Pow2(low), b, n) == a * Pow2(low) + b
    decreases low
  {
    if low == 0 {
      OrWithZero(a, n);
    } else {
      var half := a * Pow2(low - 1);
      assert a * Pow2(low) == 2 * half by {
        assert a * (2 * Pow2(low - 1)) == 2 * (a * Pow2(low - 1));
      }
      OrOfDisjoint(a, b / 2, low - 1, n - 1);
    }
  }

  lemma AndStep(a: nat, p: nat, n: nat)
    requires n > 0 && p > 0 && AndBits(a / 2, p - 1, n - 1) == (a / 2) % p
    ensures AndBits(a, 2 * p - 1, n) == a % (2 * p)
  {
    ModTwice(a, p);
    var mask := 2 * p - 1;
    assert mask % 2 == 1 && mask / 2 == p - 1;
  }

  lemma {:induction false} AndWithMask(a: nat, low: nat, n: nat)
    requires low <= n
    ensures AndBits(a, Pow2(low) - 1, n) == a % Pow2(low)
    decreases n
  {
    if low == 0 {
      AndWithZero(a, n);
    } else {
      hide AndBits;
      AndWithMask(a / 2, low - 1, n - 1);
      AndStep(a, Pow2(low - 1), n);
    }
  }

  lemma {:induction false} AndWithZero(a: nat, n: nat)
    ensures AndBits(a, 0, n) == 0
  {
    if n > 0 {
      AndWithZero(a / 2, n - 1);
    }
  }

  lemma ModTwice(a: nat, d: nat)
    requires d > 0
    ensures a % (2 * d) == a % 2 + 2 * ((a / 2) % d)
  {
    var h := a / 2;
    assert h == d * (h / d) + h % d;
    assert a == (2 * d) * (h / d) + (a % 2 + 2 * (h % d)) by {
      assert a == 2 * h + a % 2;
      assert 2 * (d * (h / d)) == (2 * d) * (h / d);
    }
    UniqueRemainder(a, 2 * d, h / d, a % 2 + 2 * (h % d));
  }

  lemma UniqueRemainder(a: int, d: nat, q: int, r: nat)
    requires d > 0 && a == d * q + r && r < d
    ensures a % d == r && a / d == q
  {
    NoSmallMultiple(d, q - a / d) by {
      assert a == d * (a / d) + a % d;
      assert d * (q - a / d) == d * q - d * (a / d);
    }
  }

  lemma NoSmallMultiple(d: int, k: int)
    requires -d < d * k < d
    ensures k == 0
  {
    assert k >= 1 ==> d * k >= d;
    assert k <= -1 ==> d * k <= -d;
  }

  lemma SmallPowers()
    ensures Pow2(0) == 1 && Pow2(1) == 2 && Pow2(2) == 4 && Pow2(3) == 8 && Pow2(4) == 16 && Pow2(5) == 32
            && Pow2(6) == 64
    ensures Pow2(7) == 128 && Pow2(8) == 256 && Pow2(9) == 512 && Pow2(10) == 1024 && Pow2(11) == 2048
            && Pow2(12) == 4096
  {
    assert Pow2(2) == 2 * Pow2(1) && Pow2(3) == 2 * Pow2(2) && Pow2(4) == 2 * Pow2(3) && Pow2(5) == 2 * Pow2(4);
    assert Pow2(6) == 2 * Pow2(5) && Pow2(7) == 2 * Pow2(6) && Pow2(8) == 2 * Pow2(7) && Pow2(9) == 2 * Pow2(8);
    assert Pow2(10) == 2 * Pow2(9) && Pow2(11) == 2 * Pow2(10) && Pow2(12) == 2 * Pow2(11);
  }

  lemma PowOf24And32()
    ensures Pow2(24) == 0x100_0000 && Pow2(32) == TWO_TO_32
  {
    SmallPowers();
    PowInTwo(12, 12);
    PowInTwo(24, 8);
  }

  lemma {:induction false} PowInTwo(a: nat, b: nat)
    ensures Pow2(a + b) == Pow2(a) * Pow2(b)
    decreases b
  {
    if b > 0 {
      PowInTwo(a, b - 1);
      assert Pow2(a) * (2 * Pow2(b - 1)) == 2 * (Pow2(a) * Pow2(b - 1));
    }
  }

  lemma SameBits(x: int)
    ensures ToUint32(ToInt32(x)) == ToUint32(x)
  {
    UniqueRemainder(ToUint32(x), TWO_TO_32, 0, ToUint32(x));
    UniqueRemainder(ToUint32(x) - TWO_TO_32, TWO_TO_32, -1, ToUint32(x));
  }

  lemma ShiftedByEight(value: int)
    ensures ToUint32(ShiftLeft(value, 8)) == (ToUint32(value) % 0x100_0000) * 256
  {
    SmallPowers();
    var u := ToUint32(value);
    var q, h, low := value / TWO_TO_32, u / 0x100_0000, u % 0x100_0000;
    assert value == TWO_TO_32 * q + u && u == 0x100_0000 * h + low;
    SameBits(value * 256);
    UniqueRemainder(value * 256, TWO_TO_32, 256 * q + h, low * 256);
  }

  lemma OrByte(low: nat, b: Byte)
    requires low < 0x100_0000
    ensures OrBits(low * 256, b, 32) == low * 256 + b
  {
    assert Pow2(8) == 256 by { SmallPowers(); }
    assert Pow2(24) == 0x100_0000 by { PowOf24And32(); }
    hide Pow2;
    hide OrBits;
    OrOfDisjoint(low, b, 8, 32);
  }

  /** `(value << 8) | byte` is multiplication and addition, modulo two to the 32. */
  lemma ShiftedIn(value: int, b: Byte)
    ensures ToUint32(Or(ShiftLeft(value, 8), b)) == (ToUint32(value) % 0x100_0000) * 256 + b
  {
    hide ShiftLeft;
    hide OrBits;
    hide ToInt32;
    var low := ToUint32(value) % 0x100_0000;
    ShiftedByEight(value);
    OrByte(low, b);
    UniqueRemainder(b, TWO_TO_32, 0, b);
    SameBits(low * 256 + b);
    UniqueRemainder(low * 256 + b, TWO_TO_32, 0, low * 256 + b);
  }

  /** `(value >>> k) & 31` are five bits of the unsigned value. */
  lemma FiveBits(value: int, k: nat)
    ensures And(ShiftRightUnsigned(value, k), 31) == Quotient(ToUint32(value), Pow2(k)) % 32
  {
    var q := Quotient(ToUint32(value), Pow2(k));
    QuotientIsSmaller(ToUint32(value), Pow2(k));
    hide Quotient;
    assert Pow2(5) == 32 by { SmallPowers(); }
    UniqueRemainder(q, TWO_TO_32, 0, q);
    UniqueRemainder(31, TWO_TO_32, 0, 31);
    AndWithMask(q, 5, 32);
    hide AndBits;
    hide Pow2;
    UniqueRemainder(q % 32, TWO_TO_32, 0, q % 32);
  }

  lemma QuotientIsSmaller(a: nat, d: nat)
    requires d > 0
    ensures Quotient(a, d) <= a
  {
    var q := a / d;
    assert a == d * q + a % d;
    AtLeast(d, q);
  }

  lemma AtLeast(d: nat, q: nat)
    requires d > 0
    ensures d * q >= q
  {
  }

  lemma ModOfMod(u: nat, p: nat, m: nat)
    requires p > 0 && m > 0
    ensures p * m > 0 && (u % (p * m)) % p == u % p
  {
    AtLeast(p, m);
    var w := u % (p * m);
    var h, r := w / p, w % p;
    assert w == p * h + r;
    assert u == (p * m) * (u / (p * m)) + w;
    assert (p * m) * (u / (p * m)) == p * (m * (u / (p * m)));
    assert u == p * (m * (u / (p * m)) + h) + r;
    UniqueRemainder(u, p, m * (u / (p * m)) + h, r);
  }

  lemma LowBits(u: nat, k: nat)
    requires k <= 24
    ensures (u % 0x100_0000) % Pow2(k) == u % Pow2(k)
  {
    PowInTwo(k, 24 - k);
    PowOf24And32();
    hide Pow2;
    ModOfMod(u, Pow2(k), Pow2(24 - k));
  }

  lemma AppendedByte(w: nat, p: nat, b: Byte)
    requires p > 0
    ensures (w * 256 + b) % (p * 256) == (w % p) * 256 + b
  {
    var h, r := w / p, w % p;
    assert w == p * h + r;
    assert (p * 256) * h == (p * h) * 256;
    UniqueRemainder(w * 256 + b, p * 256, h, r * 256 + b);
  }

  lemma ByteBelow(u: nat, k: nat, b: Byte)
    requires k <= 24
    ensures ((u % 0x100_0000) * 256 + b) % Pow2(k + 8) == (u % Pow2(k)) * 256 + b
  {
    LowBits(u, k);
    PowInTwo(k, 8);
    assert Pow2(8) == 256 by { SmallPowers(); }
    hide Pow2;
    AppendedByte(u % 0x100_0000, Pow2(k), b);
  }

  lemma TakeTopFive(u: nat, k: nat, top: nat, low: nat)
    requires k <= 7 && top < 32 && low < Pow2(k) && u % Pow2(k + 5) == top * Pow2(k) + low
    ensures Quotient(u, Pow2(k)) % 32 == top && u % Pow2(k) == low
  {
    SmallPowers();
    assert Pow2(k + 5) == 32 * Pow2(k);
    hide Pow2;
    TopOf(u, Pow2(k), top, low);
  }

  lemma TopOf(u: nat, p: nat, top: nat, low: nat)
    requires p > 0 && top < 32 && low < p && u % (32 * p) == top * p + low
    ensures Quotient(u, p) % 32 == top && u % p == low
  {
    var h := u / (32 * p);
    assert u == 32 * p * h + u % (32 * p);
    assert u == p * (32 * h + top) + low by {
      assert 32 * p * h == p * (32 * h) && top * p == p * top;
    }
    UniqueRemainder(u, p, 32 * h + top, low);
  }
}
