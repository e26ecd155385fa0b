/** GF(2^8) modulo 0x11d as the QR encoder computes it. */
module Gf256 {
  import opened Bits

  // ---- addition ----

  lemma AddLaws(a: Byte, b: Byte, c: Byte)
    ensures ByteXor(a, b) == ByteXor(b, a)
    ensures ByteXor(ByteXor(a, b), c) == ByteXor(a, ByteXor(b, c))
    ensures ByteXor(a, 0) == a && ByteXor(0, a) == a && ByteXor(a, a) == 0
  {
    hide Xor;
    XorComm(a, b);
    XorAssoc(a, b, c);
    XorZero(a);
    XorSelf(a);
  }

  lemma AddSwap(a: Byte, b: Byte, c: Byte, d: Byte)
    ensures ByteXor(ByteXor(a, b), ByteXor(c, d)) == ByteXor(ByteXor(a, c), ByteXor(b, d))
  {
    hide *;
    AddLaws(a, b, ByteXor(c, d));
    AddLaws(b, c, d);
    AddLaws(c, b, d);
    AddLaws(a, c, ByteXor(b, d));
  }

  lemma EqualWhenSumZero(a: Byte, b: Byte)
    requires ByteXor(a, b) == 0
    ensures a == b
  {
    hide *;
    AddLaws(a, b, b);
    AddLaws(b, b, b);
  }

  // ---- doubling ----

  /** `(z << 1) ^ ((z >>> 7) * 0x11d)` */
  function XTime(z: Byte): Byte {
    XTimeRange(z);
    Xor(2 * z, Shr(z, 7) * 0x11d)
  }

  lemma XTimeRange(z: Byte)
    ensures Xor(2 * z, Shr(z, 7) * 0x11d) < 256
  {
    hide Xor, Shr;
    TopBit(z);
    if z < 128 {
      XorZero(2 * z);
    } else {
      // bit 8 of both operands is set, so it cancels
      var y: nat := 2 * (z as int) - 256;
      assert Pow2(8) == 256;
      XorHigh(y, 0x1d, 8);
      XorBound(y, 0x1d, 8);
    }
  }

  lemma TopBit(z: Byte)
    ensures Shr(z, 7) == if z < 128 then 0 else 1
  {
    ShrRange(z, 7, if z < 128 then 0 else 1);
  }

  /** q is v >>> i when v lies in the q-th block of 2^i numbers. */
  lemma {:induction false} ShrRange(v: nat, i: nat, q: nat)
    requires q < 2 && q * Pow2(i) <= v < (q + 1) * Pow2(i)
    ensures Shr(v, i) == q
  {
    if i > 0 {
      ShrRange(v / 2, i - 1, q);
    }
  }

  /** The top bits of a and b cancel. */
  lemma {:induction false} XorHigh(a: nat, b: nat, n: nat)
    requires a < Pow2(n) && b < Pow2(n)
    ensures Xor(a + Pow2(n), b + Pow2(n)) == Xor(a, b)
  {
    if n > 0 {
      XorHigh(a / 2, b / 2, n - 1);
      assert (a + Pow2(n)) / 2 == a / 2 + Pow2(n - 1);
      assert (b + Pow2(n)) / 2 == b / 2 + Pow2(n - 1);
    }
  }

  lemma XorSwap(a: nat, b: nat, c: nat, d: nat)
    ensures Xor(Xor(a, b), Xor(c, d)) == Xor(Xor(a, c), Xor(b, d))
  {
    hide *;
    XorAssoc(a, b, Xor(c, d));
    XorAssoc(b, c, d);
    XorComm(b, c);
    XorAssoc(c, b, d);
    XorAssoc(a, c, Xor(b, d));
  }

  lemma XorDouble(a: nat, b: nat)
    ensures Xor(2 * a, 2 * b) == 2 * Xor(a, b)
  {
    hide *;
    XorHalf(2 * a, 2 * b);
  }

  /** Exclusive-or of two multiples of k by 0 or 1. */
  lemma XorBits(p: nat, q: nat, k: nat)
    requires p < 2 && q < 2
    ensures Xor(p, q) < 2 && Xor(p * k, q * k) == Xor(p, q) * k
  {
    hide *;
    XorZero(k);
    XorSelf(k);
    XorZero(0);
    XorZero(1);
    XorSelf(1);
  }

  lemma XTimeAdd(a: Byte, b: Byte)
    ensures XTime(ByteXor(a, b)) == ByteXor(XTime(a), XTime(b))
  {
    hide Xor, Shr;
    TopBit(a);
    TopBit(b);
    XorShr(a, b, 7);
    XorDouble(a, b);
    XorBits(Shr(a, 7), Shr(b, 7), 0x11d);
    XorSwap(2 * a, 2 * b, Shr(a, 7) * 0x11d, Shr(b, 7) * 0x11d);
  }

  lemma XTimeZero(z: Byte)
    ensures XTime(z) == 0 <==> z == 0
  {
    hide Xor, Shr;
    TopBit(z);
    XorZero(2 * z);
    XorHalf(2 * z, 0x11d);
  }

  lemma XTimeInjective(a: Byte, b: Byte)
    requires XTime(a) == XTime(b)
    ensures a == b
  {
    hide *;
    XTimeAdd(a, b);
    AddLaws(XTime(a), 0, 0);
    XTimeZero(ByteXor(a, b));
    EqualWhenSumZero(a, b);
  }

  // ---- multiplication ----

  /** The loop of gfMul after n of its eight rounds. */
  function Horner(x: Byte, y: Byte, n: nat): Byte
    requires n <= 8
  {
    if n == 0 then 0 else ByteXor(XTime(Horner(x, y, n - 1)), Pick(BitAt(y, 8 - n), x))
  }

  function Pick(b: nat, x: Byte): Byte { if b == 0 then 0 else x }

  function Mul(x: Byte, y: Byte): Byte { Horner(x, y, 8) }

  lemma HornerStep(x: Byte, y: Byte, n: nat)
    requires n <= 8
    ensures n == 0 ==> Horner(x, y, n) == 0
    ensures n > 0 ==> Horner(x, y, n) == ByteXor(XTime(Horner(x, y, n - 1)), Pick(BitAt(y, 8 - n), x))
  {
    hide ByteXor, XTime, BitAt;
  }

  method GfMul(x: Byte, y: Byte) returns (z: Byte)
    ensures z == Mul(x, y)
  {
    hide Xor, ByteXor, BitAt;
    z := 0;
    var i := 7;
    while i >= 0
      invariant -1 <= i <= 7
      invariant z == Horner(x, y, 7 - i)
    {
      z := XTime(z);
      z := ByteXor(z, BitAt(y, i) * x);
      i := i - 1;
    }
  }

  lemma PickAddLeft(b: nat, x: Byte, w: Byte)
    ensures Pick(b, ByteXor(x, w)) == ByteXor(Pick(b, x), Pick(b, w))
  {
    hide ByteXor;
    AddLaws(0, 0, 0);
  }

  lemma PickAddBits(b: nat, c: nat, x: Byte)
    requires b < 2 && c < 2
    ensures Pick((b + c) % 2, x) == ByteXor(Pick(b, x), Pick(c, x))
  {
    hide ByteXor;
    AddLaws(0, 0, 0);
    AddLaws(x, 0, 0);
  }

  lemma {:induction false} HornerAddLeft(x: Byte, w: Byte, y: Byte, n: nat)
    requires n <= 8
    ensures Horner(ByteXor(x, w), y, n) == ByteXor(Horner(x, y, n), Horner(w, y, n))
  {
    hide *;
    HornerStep(ByteXor(x, w), y, n);
    HornerStep(x, y, n);
    HornerStep(w, y, n);
    if n == 0 {
      AddLaws(0, 0, 0);
    } else {
      var h, k, b := Horner(x, y, n - 1), Horner(w, y, n - 1), BitAt(y, 8 - n);
      HornerAddLeft(x, w, y, n - 1);
      XTimeAdd(h, k);
      PickAddLeft(b, x, w);
      AddSwap(XTime(h), XTime(k), Pick(b, x), Pick(b, w));
    }
  }

  lemma BitXor(y: Byte, w: Byte, i: nat)
    ensures BitAt(ByteXor(y, w), i) == (BitAt(y, i) + BitAt(w, i)) % 2
  {
    hide Xor, BitAt;
    XorBit(y, w, i);
  }

  lemma {:induction false} HornerAddRight(x: Byte, y: Byte, w: Byte, n: nat)
    requires n <= 8
    ensures Horner(x, ByteXor(y, w), n) == ByteXor(Horner(x, y, n), Horner(x, w, n))
  {
    hide *;
    HornerStep(x, ByteXor(y, w), n);
    HornerStep(x, y, n);
    HornerStep(x, w, n);
    if n == 0 {
      AddLaws(0, 0, 0);
    } else {
      var h, k, b, c := Horner(x, y, n - 1), Horner(x, w, n - 1), BitAt(y, 8 - n), BitAt(w, 8 - n);
      BitXor(y, w, 8 - n);
      HornerAddRight(x, y, w, n - 1);
      XTimeAdd(h, k);
      PickAddBits(b, c, x);
      AddSwap(XTime(h), XTime(k), Pick(b, x), Pick(c, x));
    }
  }

  lemma PickXTime(b: nat, x: Byte)
    ensures Pick(b, XTime(x)) == XTime(Pick(b, x))
  {
    hide XTime;
    XTimeZero(0);
  }

  lemma {:induction false} HornerXTime(x: Byte, y: Byte, n: nat)
    requires n <= 8
    ensures Horner(XTime(x), y, n) == XTime(Horner(x, y, n))
  {
    hide *;
    HornerStep(XTime(x), y, n);
    HornerStep(x, y, n);
    XTimeZero(0);
    if n > 0 {
      var h, b := Horner(x, y, n - 1), BitAt(y, 8 - n);
      HornerXTime(x, y, n - 1);
      PickXTime(b, x);
      XTimeAdd(XTime(h), Pick(b, x));
    }
  }

  lemma {:induction false} HornerZero(y: Byte, n: nat)
    requires n <= 8
    ensures Horner(0, y, n) == 0
  {
    hide XTime, ByteXor, BitAt;
    if n > 0 {
      HornerZero(y, n - 1);
      XTimeZero(0);
      AddLaws(0, 0, 0);
    }
  }

  lemma {:induction false} ShrSmaller(v: nat, i: nat)
    requires i > 0
    ensures Shr(v, i) <= v / 2
  {
    if i > 1 {
      ShrSmaller(v / 2, i - 1);
    }
  }

  lemma DoubleThenBit(h: Byte, b: nat)
    requires h < 128 && b < 2
    ensures ByteXor(XTime(h), Pick(b, 1)) == 2 * h + b
  {
    hide Xor, Shr;
    TopBit(h);
    XorZero(2 * h);
    XorZero(h);
    XorHalf(2 * h, b);
  }

  /** When x is 1 the loop rebuilds y from its top bit down. */
  lemma {:induction false} HornerOne(y: Byte, n: nat)
    requires n <= 8
    ensures Horner(1, y, n) == Shr(y, 8 - n)
  {
    hide *;
    HornerStep(1, y, n);
    if n == 0 {
      NothingAbove(y);
    } else {
      HornerOne(y, n - 1);
      BitOfQuotient(y, 8 - n);
      Halve(y, 8 - n);
      ShrSmaller(y, 9 - n);
      DoubleThenBit(Horner(1, y, n - 1), Shr(y, 8 - n) % 2);
    }
  }

  lemma NothingAbove(y: Byte)
    ensures Shr(y, 8) == 0
  {
    hide Shr;
    TopBit(y);
    Halve(y, 7);
  }

  lemma BitOfQuotient(y: nat, i: nat)
    ensures BitAt(y, i) == Shr(y, i) % 2
  {
  }

  lemma MulOne(y: Byte)
    ensures Mul(1, y) == y
  {
    hide Horner;
    HornerOne(y, 8);
  }

  lemma MulZero(y: Byte)
    ensures Mul(0, y) == 0
  {
    hide Horner;
    HornerZero(y, 8);
  }

  lemma MulAddLeft(x: Byte, w: Byte, y: Byte)
    ensures Mul(ByteXor(x, w), y) == ByteXor(Mul(x, y), Mul(w, y))
  {
    hide Horner, ByteXor;
    HornerAddLeft(x, w, y, 8);
  }

  lemma MulAddRight(x: Byte, y: Byte, w: Byte)
    ensures Mul(x, ByteXor(y, w)) == ByteXor(Mul(x, y), Mul(x, w))
  {
    hide Horner, ByteXor;
    HornerAddRight(x, y, w, 8);
  }

  lemma MulXTime(x: Byte, y: Byte)
    ensures Mul(XTime(x), y) == XTime(Mul(x, y))
  {
    hide Horner, XTime;
    HornerXTime(x, y, 8);
  }

  lemma PickMul(b: nat, x: Byte, w: Byte)
    ensures Mul(Pick(b, x), w) == Pick(b, Mul(x, w))
  {
    hide Mul;
    MulZero(w);
  }

  /** Multiplying by w goes through the rounds of another multiplication. */
  lemma {:induction false} HornerAssoc(w: Byte, x: Byte, y: Byte, n: nat)
    requires n <= 8
    ensures Mul(Horner(x, y, n), w) == Horner(Mul(x, w), y, n)
  {
    hide *;
    HornerStep(x, y, n);
    HornerStep(Mul(x, w), y, n);
    if n == 0 {
      MulZero(w);
    } else {
      var h, b := Horner(x, y, n - 1), BitAt(y, 8 - n);
      HornerAssoc(w, x, y, n - 1);
      MulXTime(h, w);
      PickMul(b, x, w);
      MulAddLeft(XTime(h), Pick(b, x), w);
    }
  }

  lemma MulUnfold(x: Byte, y: Byte)
    ensures Mul(x, y) == Horner(x, y, 8)
  {
    hide Horner;
  }

  lemma MulComm(x: Byte, y: Byte)
    ensures Mul(x, y) == Mul(y, x)
  {
    hide *;
    MulOne(y);
    MulOne(x);
    HornerAssoc(x, 1, y, 8);
    MulUnfold(1, y);
    MulUnfold(x, y);
  }

  lemma MulAssoc(x: Byte, y: Byte, w: Byte)
    ensures Mul(Mul(x, y), w) == Mul(x, Mul(y, w))
  {
    hide *;
    HornerAssoc(w, x, y, 8);   // (x y) w == (x w) y
    MulUnfold(x, y);
    MulUnfold(Mul(x, w), y);
    MulUnfold(w, y);
    HornerAssoc(y, w, x, 8);   // (w x) y == (w y) x
    MulUnfold(w, x);
    MulUnfold(Mul(w, y), x);
    MulComm(x, w);
    MulComm(y, w);
    MulComm(x, Mul(y, w));
  }

  // ---- the product of polynomials over GF(2), reduced by 0x11d ----

  /** Carry-less product of two numbers read as polynomials over GF(2). */
  function Carryless(a: nat, b: nat): nat {
    if b == 0 then 0 else Xor(2 * Carryless(a, b / 2), (b % 2) * a)
  }

  lemma CarrylessDigit(a: nat, b: nat, t: nat)
    requires t < 2
    ensures Carryless(a, 2 * b + t) == Xor(2 * Carryless(a, b), t * a)
  {
    hide Xor;
    XorZero(0);
  }

  lemma ReducesAtStart(x: Byte, y: Byte)
    ensures Xor(Horner(x, y, 0), Carryless(0x11d, 0)) == Carryless(x, Shr(y, 8))
  {
    hide Shr;
    NothingAbove(y);
    XorZero(0);
  }

  lemma {:induction false} HornerReduces(x: Byte, y: Byte, n: nat) returns (q: nat)
    requires n <= 8
    ensures Xor(Horner(x, y, n), Carryless(0x11d, q)) == Carryless(x, Shr(y, 8 - n))
  {
    hide *;
    if n == 0 {
      ReducesAtStart(x, y);
      q := 0;
    } else {
      var h, v := Horner(x, y, n - 1), Shr(y, 8 - n);
      BitOfQuotient(y, 8 - n);
      var p := HornerReduces(x, y, n - 1);
      q := 2 * p + Shr(h, 7);
      TopBit(h);
      var c := Carryless(0x11d, p);
      HornerStep(x, y, n);
      Halve(y, 8 - n);
      CarrylessDigit(0x11d, p, Shr(h, 7));
      CarrylessUnfold(x, v);
      RoundReduces(h, c, Pick(v % 2, x));
      XorDouble(h, c);
    }
  }

  lemma CarrylessUnfold(x: Byte, v: nat)
    ensures Carryless(x, v) == Xor(2 * Carryless(x, v / 2), Pick(v % 2, x))
  {
    hide Carryless, Xor, Pick;
    CarrylessDigit(x, v / 2, v % 2);
    PickIs(v % 2, x);
    assert 2 * (v / 2) + v % 2 == v;
  }

  lemma PickIs(b: nat, x: Byte)
    requires b < 2
    ensures Pick(b, x) == b * x
  {
  }

  lemma RoundReduces(h: Byte, c: nat, a: Byte)
    ensures Xor(ByteXor(XTime(h), a), Xor(2 * c, Shr(h, 7) * 0x11d)) == Xor(Xor(2 * h, 2 * c), a)
  {
    hide Xor, Shr;
    var m: nat := Shr(h, 7) * 0x11d;
    var d: nat := 2 * h;
    XorAssoc(Xor(d, m), a, Xor(2 * c, m));
    XorComm(a, Xor(2 * c, m));
    XorAssoc(Xor(d, m), Xor(2 * c, m), a);
    XorSwap(d, m, 2 * c, m);
    XorSelf(m);
    XorZero(Xor(d, 2 * c));
  }

  /** gfMul is the polynomial product minus a multiple of 0x11d. */
  lemma MulIsProductModulo(x: Byte, y: Byte) returns (q: nat)
    ensures Xor(Mul(x, y), Carryless(0x11d, q)) == Carryless(x, y)
  {
    hide *;
    MulUnfold(x, y);
    ShrZero(y);
    q := HornerReduces(x, y, 8);
  }

  // ---- powers of the generator 2 ----

  function Alpha(n: nat): Byte {
    if n == 0 then 1 else XTime(Alpha(n - 1))
  }

  lemma {:induction false} AlphaNonZero(n: nat)
    ensures Alpha(n) != 0
  {
    hide XTime;
    if n > 0 {
      AlphaNonZero(n - 1);
      XTimeZero(Alpha(n - 1));
    }
  }

  lemma {:induction false} AlphaAdd(m: nat, n: nat)
    ensures Alpha(m + n) == Mul(Alpha(m), Alpha(n))
  {
    hide XTime, Mul;
    if m == 0 {
      MulOne(Alpha(n));
    } else {
      AlphaAdd(m - 1, n);
      MulXTime(Alpha(m - 1), Alpha(n));
    }
  }

  lemma {:induction false} AlphaCancel(m: nat, n: nat)
    requires m <= n && Alpha(m) == Alpha(n)
    ensures Alpha(n - m) == 1
  {
    hide XTime;
    if m > 0 {
      XTimeInjective(Alpha(m - 1), Alpha(n - 1));
      AlphaCancel(m - 1, n - 1);
    }
  }

  /** XTime in plain arithmetic: 0x11d clears bit 8, sets bit 0 and flips bits 2, 3 and 4. */
  function Doubled(z: int): int {
    if z < 128 then 2 * z
    else 2 * z - 227 - 8 * (z / 2 % 2) - 16 * (z / 4 % 2) - 32 * (z / 8 % 2)
  }

  lemma XTimeIsDoubled(z: Byte)
    ensures XTime(z) == Doubled(z)
  {
    hide Xor, Shr;
    XorZero(2 * z);
    TopBit(z);
    if z >= 128 {
      var u: nat := z - 128;
      TopBitCancels(2 * u);
      Xor29(u);
      LowDigit(u, 2);
      LowDigit(u, 4);
      LowDigit(u, 8);
    }
  }

  lemma TopBitCancels(v: nat)
    requires v < 256
    ensures Xor(v + 256, 285) == Xor(v, 29)
  {
    assert Pow2(8) == 256;
    XorHigh(v, 29, 8);
  }

  lemma XorOne(v: nat)
    ensures Xor(v, 1) == v + 1 - 2 * (v % 2)
  {
    hide *;
    XorStep(v, 1);
    XorZero(v / 2);
  }

  lemma XorThree(v: nat)
    ensures Xor(v, 3) == v + 3 - 2 * (v % 2) - 4 * (v / 2 % 2)
  {
    hide *;
    XorStep(v, 3);
    XorOne(v / 2);
  }

  lemma XorSeven(v: nat)
    ensures Xor(v, 7) == v + 7 - 2 * (v % 2) - 4 * (v / 2 % 2) - 8 * (v / 4 % 2)
  {
    hide *;
    XorStep(v, 7);
    XorThree(v / 2);
    Quarter(v);
  }

  lemma Xor29(u: nat)
    ensures Xor(2 * u, 29) == 2 * u + 29 - 8 * (u / 2 % 2) - 16 * (u / 4 % 2) - 32 * (u / 8 % 2)
  {
    hide *;
    XorStep(2 * u, 29);
    XorStep(u, 14);
    XorSeven(u / 2);
    Quarter(u);
    Eighth(u);
  }

  lemma Eighth(u: nat)
    ensures u / 2 / 4 == u / 8
  {
  }

  lemma Quarter(u: nat)
    ensures u / 2 / 2 == u / 4
  {
  }

  lemma XorStep(a: nat, b: nat)
    ensures Xor(a, b) == 2 * Xor(a / 2, b / 2) + if a % 2 == b % 2 then 0 else 1
  {
    hide Xor;
    XorHalf(a, b);
  }

  /** Adding 128 leaves the low bits alone. */
  lemma LowDigit(u: nat, h: nat)
    requires h == 2 || h == 4 || h == 8
    ensures (u + 128) / h % 2 == u / h % 2
  {
    assert (u + 128) / h == u / h + 128 / h;
  }

  predicate Doubles(z: int, w: int) {
    Doubled(z) == w && w != 1 && 0 <= w < 256
  }

  lemma AlphaNext(n: nat, z: int, w: int)
    requires Alpha(n) == z && Doubled(z) == w
    ensures Alpha(n + 1) == w
  {
    hide Doubled, XTime;
    XTimeIsDoubled(Alpha(n));
  }

  predicate NoneIsOne(lo: nat, hi: nat) {
    forall i: nat :: lo < i < hi ==> Alpha(i) != 1
  }

  /** Fifteen consecutive powers of 2, given as numbers. */
  lemma Fifteen(n: nat, a0: int, a1: int, a2: int, a3: int, a4: int, a5: int, a6: int, a7: int,
                a8: int, a9: int, a10: int, a11: int, a12: int, a13: int, a14: int, a15: int)
    requires Alpha(n) == a0 && Doubles(a0, a1) && Doubles(a1, a2) && Doubles(a2, a3) && Doubles(a3, a4) && Doubles(a4, a5) && Doubles(a5, a6) && Doubles(a6, a7)
    requires Doubles(a7, a8) && Doubles(a8, a9) && Doubles(a9, a10) && Doubles(a10, a11) && Doubles(a11, a12) && Doubles(a12, a13) && Doubles(a13, a14) && Doubled(a14) == a15
    ensures NoneIsOne(n, n + 15) && Alpha(n + 15) == a15
  {
    hide Alpha, Doubled;
    AlphaNext(n, a0, a1);
    AlphaNext(n + 1, a1, a2);
    AlphaNext(n + 2, a2, a3);
    AlphaNext(n + 3, a3, a4);
    AlphaNext(n + 4, a4, a5);
    AlphaNext(n + 5, a5, a6);
    AlphaNext(n + 6, a6, a7);
    AlphaNext(n + 7, a7, a8);
    AlphaNext(n + 8, a8, a9);
    AlphaNext(n + 9, a9, a10);
    AlphaNext(n + 10, a10, a11);
    AlphaNext(n + 11, a11, a12);
    AlphaNext(n + 12, a12, a13);
    AlphaNext(n + 13, a13, a14);
    AlphaNext(n + 14, a14, a15);
  }

  lemma AlphaZero()
    ensures Alpha(0) == 1
  {
  }

  lemma Join(lo: nat, mid: nat, hi: nat)
    requires NoneIsOne(lo, mid) && NoneIsOne(mid, hi) && Alpha(mid) != 1
    ensures NoneIsOne(lo, hi)
  {
    hide Alpha;
  }

  lemma PowersTo45()
    ensures NoneIsOne(0, 45) && Alpha(45) == 193
  {
    hide Alpha, NoneIsOne;
    AlphaZero();
    Fifteen(0, 1, 2, 4, 8, 16, 32, 64, 128, 29, 58, 116, 232, 205, 135, 19, 38);
    Fifteen(15, 38, 76, 152, 45, 90, 180, 117, 234, 201, 143, 3, 6, 12, 24, 48, 96);
    Fifteen(30, 96, 192, 157, 39, 78, 156, 37, 74, 148, 53, 106, 212, 181, 119, 238, 193);
    Join(0, 15, 30);
    Join(0, 30, 45);
  }

  lemma PowersTo75()
    ensures NoneIsOne(0, 75) && Alpha(75) == 15
  {
    hide Alpha, NoneIsOne;
    PowersTo45();
    Fifteen(45, 193, 159, 35, 70, 140, 5, 10, 20, 40, 80, 160, 93, 186, 105, 210, 185);
    Fifteen(60, 185, 111, 222, 161, 95, 190, 97, 194, 153, 47, 94, 188, 101, 202, 137, 15);
    Join(0, 45, 60);
    Join(0, 60, 75);
  }

  lemma PowersTo90()
    ensures NoneIsOne(0, 90) && Alpha(90) == 223
  {
    hide Alpha, NoneIsOne;
    PowersTo75();
    Fifteen(75, 15, 30, 60, 120, 240, 253, 231, 211, 187, 107, 214, 177, 127, 254, 225, 223);
    Join(0, 75, 90);
  }

  lemma PowersTo105()
    ensures NoneIsOne(0, 105) && Alpha(105) == 26
  {
    hide Alpha, NoneIsOne;
    PowersTo90();
    Fifteen(90, 223, 163, 91, 182, 113, 226, 217, 175, 67, 134, 17, 34, 68, 136, 13, 26);
    Join(0, 90, 105);
  }

  lemma PowersTo135()
    ensures NoneIsOne(0, 135) && Alpha(135) == 169
  {
    hide Alpha, NoneIsOne;
    PowersTo105();
    Fifteen(105, 26, 52, 104, 208, 189, 103, 206, 129, 31, 62, 124, 248, 237, 199, 147, 59);
    Fifteen(120, 59, 118, 236, 197, 151, 51, 102, 204, 133, 23, 46, 92, 184, 109, 218, 169);
    Join(0, 105, 120);
    Join(0, 120, 135);
  }

  lemma PowersTo150()
    ensures NoneIsOne(0, 150) && Alpha(150) == 85
  {
    hide Alpha, NoneIsOne;
    PowersTo135();
    Fifteen(135, 169, 79, 158, 33, 66, 132, 21, 42, 84, 168, 77, 154, 41, 82, 164, 85);
    Join(0, 135, 150);
  }

  lemma PowersTo165()
    ensures NoneIsOne(0, 165) && Alpha(165) == 145
  {
    hide Alpha, NoneIsOne;
    PowersTo150();
    Fifteen(150, 85, 170, 73, 146, 57, 114, 228, 213, 183, 115, 230, 209, 191, 99, 198, 145);
    Join(0, 150, 165);
  }

  lemma PowersTo180()
    ensures NoneIsOne(0, 180) && Alpha(180) == 150
  {
    hide Alpha, NoneIsOne;
    PowersTo165();
    Fifteen(165, 145, 63, 126, 252, 229, 215, 179, 123, 246, 241, 255, 227, 219, 171, 75, 150);
    Join(0, 165, 180);
  }

  lemma PowersTo195()
    ensures NoneIsOne(0, 195) && Alpha(195) == 100
  {
    hide Alpha, NoneIsOne;
    PowersTo180();
    Fifteen(180, 150, 49, 98, 196, 149, 55, 110, 220, 165, 87, 174, 65, 130, 25, 50, 100);
    Join(0, 180, 195);
  }

  lemma PowersTo225()
    ensures NoneIsOne(0, 225) && Alpha(225) == 36
  {
    hide Alpha, NoneIsOne;
    PowersTo195();
    Fifteen(195, 100, 200, 141, 7, 14, 28, 56, 112, 224, 221, 167, 83, 166, 81, 162, 89);
    Fifteen(210, 89, 178, 121, 242, 249, 239, 195, 155, 43, 86, 172, 69, 138, 9, 18, 36);
    Join(0, 195, 210);
    Join(0, 210, 225);
  }

  lemma PowersTo255()
    ensures NoneIsOne(0, 255) && Alpha(255) == 1
  {
    hide Alpha, NoneIsOne;
    PowersTo225();
    Fifteen(225, 36, 72, 144, 61, 122, 244, 245, 247, 243, 251, 235, 203, 139, 11, 22, 44);
    Fifteen(240, 44, 88, 176, 125, 250, 233, 207, 131, 27, 54, 108, 216, 173, 71, 142, 1);
    Join(0, 225, 240);
    Join(0, 240, 255);
  }

  // ---- 2 generates the multiplicative group; there are no zero divisors ----

  lemma AlphaDistinct(i: nat, j: nat)
    requires i < j < 255
    ensures Alpha(i) != Alpha(j)
  {
    hide Alpha;
    if Alpha(i) == Alpha(j) {
      AlphaCancel(i, j);
      PowersTo255();
    }
  }

  lemma {:induction false} FirstPowers(n: nat) returns (s: set<int>)
    requires n <= 255
    ensures s == (set i | 0 <= i < n :: Alpha(i) as int) && |s| == n
    ensures forall v :: v in s ==> 0 < v < 256
  {
    hide Alpha;
    if n == 0 {
      s := {};
    } else {
      var t := FirstPowers(n - 1);
      s := t + {Alpha(n - 1) as int};
      AlphaNonZero(n - 1);
      forall i | 0 <= i < n - 1
        ensures Alpha(i) != Alpha(n - 1)
      {
        AlphaDistinct(i, n - 1);
      }
    }
  }

  ghost function UpTo(n: nat): (s: set<int>)
    ensures |s| == n && forall v :: v in s <==> 1 <= v <= n
  {
    if n == 0 then {} else UpTo(n - 1) + {n}
  }

  lemma {:induction false} SubsetSize(a: set<int>, b: set<int>)
    requires a <= b
    ensures |a| <= |b|
  {
    if exists v :: v in a {
      var x: int :| x in a;
      SubsetSize(a - {x}, b - {x});
    }
  }

  /** The discrete logarithm exists for every nonzero byte. */
  lemma Log(x: Byte) returns (i: nat)
    requires x != 0
    ensures i < 255 && Alpha(i) == x
  {
    hide Alpha;
    var powers := FirstPowers(255);
    if x as int !in powers {
      SubsetSize(powers + {x as int}, UpTo(255));
      assert false;
    }
    i :| 0 <= i < 255 && Alpha(i) as int == x as int;
  }

  lemma NoZeroDivisors(x: Byte, y: Byte)
    requires x != 0 && y != 0
    ensures Mul(x, y) != 0
  {
    hide *;
    var i := Log(x);
    var j := Log(y);
    AlphaAdd(i, j);
    AlphaNonZero(i + j);
  }

  lemma Inverse(x: Byte) returns (y: Byte)
    requires x != 0
    ensures Mul(x, y) == 1
  {
    hide *;
    var i := Log(x);
    y := Alpha(255 - i);
    AlphaAdd(i, 255 - i);
    PowersTo255();
  }
}
