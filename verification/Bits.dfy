/** Exclusive-or, shifts and single bits of JavaScript's non-negative numbers.
    `a ^ b` is Xor(a, b), `a >>> n` is a / Pow2(n), `a << n` is a * Pow2(n). */
module Bits {

  type Byte = n: int | 0 <= n < 256

  function Pow2(n: nat): (p: nat)
    ensures p >= 1
  {
    if n == 0 then 1 else 2 * Pow2(n - 1)
  }

  function Xor(a: nat, b: nat): nat
    decreases a + b
  {
    if a == 0 && b == 0 then 0 else 2 * Xor(a / 2, b / 2) + (if a % 2 == b % 2 then 0 else 1)
  }

  lemma {:induction false} XorComm(a: nat, b: nat)
    ensures Xor(a, b) == Xor(b, a)
    decreases a + b
  {
    if a != 0 || b != 0 {
      XorComm(a / 2, b / 2);
    }
  }

  lemma {:induction false} XorZero(a: nat)
    ensures Xor(a, 0) == a && Xor(0, a) == a
  {
    if a != 0 {
      XorZero(a / 2);
    }
  }

  lemma {:induction false} XorSelf(a: nat)
    ensures Xor(a, a) == 0
  {
    if a != 0 {
      XorSelf(a / 2);
    }
  }

  lemma XorHalf(a: nat, b: nat)
    ensures Xor(a, b) / 2 == Xor(a / 2, b / 2)
    ensures Xor(a, b) % 2 == if a % 2 == b % 2 then 0 else 1
  {
  }

  lemma {:induction false} XorAssoc(a: nat, b: nat, c: nat)
    ensures Xor(Xor(a, b), c) == Xor(a, Xor(b, c))
    decreases a + b + c
  {
    hide Xor;
    XorHalf(a, b);
    XorHalf(b, c);
    XorHalf(Xor(a, b), c);
    XorHalf(a, Xor(b, c));
    if a == 0 && b == 0 && c == 0 {
      XorZero(0);
    } else {
      XorAssoc(a / 2, b / 2, c / 2);
    }
  }

  lemma {:induction false} XorBound(a: nat, b: nat, n: nat)
    requires a < Pow2(n) && b < Pow2(n)
    ensures Xor(a, b) < Pow2(n)
  {
    if n > 0 {
      XorBound(a / 2, b / 2, n - 1);
    }
  }

  function ByteXor(a: Byte, b: Byte): Byte {
    assert Pow2(8) == 256;
    XorBound(a, b, 8);
    Xor(a, b)
  }

  /** `v >>> i` */
  function Shr(v: nat, i: nat): nat {
    if i == 0 then v else Shr(v / 2, i - 1)
  }

  /** `(v >>> i) & 1` */
  function BitAt(v: nat, i: nat): (b: nat)
    ensures b < 2
  {
    Shr(v, i) % 2
  }

  lemma ShrZero(v: nat)
    ensures Shr(v, 0) == v
  {
  }

  lemma {:induction false} Halve(v: nat, i: nat)
    ensures Shr(v, i + 1) == Shr(v, i) / 2
  {
    if i > 0 {
      Halve(v / 2, i - 1);
    }
  }

  lemma {:induction false} XorShr(a: nat, b: nat, i: nat)
    ensures Shr(Xor(a, b), i) == Xor(Shr(a, i), Shr(b, i))
  {
    hide Xor;
    if i > 0 {
      XorHalf(a, b);
      XorShr(a / 2, b / 2, i - 1);
    }
  }

  lemma XorBit(a: nat, b: nat, i: nat)
    ensures BitAt(Xor(a, b), i) == if BitAt(a, i) == BitAt(b, i) then 0 else 1
  {
    hide Xor, Shr;
    XorShr(a, b, i);
    XorHalf(Shr(a, i), Shr(b, i));
  }

  /** A number below 2^k and a multiple of 2^k share no bit. */
  lemma {:induction false} XorDisjoint(a: nat, h: nat, k: nat)
    requires a < Pow2(k)
    ensures Xor(a, h * Pow2(k)) == a + h * Pow2(k)
  {
    hide Xor;
    if k == 0 {
      XorZero(h);
    } else {
      var b := h * Pow2(k);
      assert b == 2 * (h * Pow2(k - 1));
      XorHalf(a, b);
      XorDisjoint(a / 2, h, k - 1);
    }
  }
}
