/** The CRC-32 and the PNG chunks of web/scripts/gen-icons.ts. A 32-bit pattern is the
    number below 2^32 that `>>> 0` makes of it. */
module Crc32 {

  import opened Bits
  import opened Wrappers

  const POLY := 0xedb88320
  const ALL_ONES := 0xffffffff

  type Word = n: int | 0 <= n < 0x1_0000_0000

  lemma Pow32()
    ensures Pow2(32) == 0x1_0000_0000 && Pow2(31) == 0x8000_0000 && Pow2(8) == 256
  {
    assert Pow2(8) == 256;
    assert Pow2(16) == 0x1_0000;
    assert Pow2(24) == 0x100_0000;
    assert Pow2(31) == 0x8000_0000;
  }

  lemma WordXor(a: Word, b: Word)
    ensures Xor(a, b) < 0x1_0000_0000
  {
    hide Xor;
    Pow32();
    XorBound(a, b, 32);
  }

  /** One turn of the inner loop. */
  function Step(c: Word): Word {
    WordXor(POLY, c / 2);
    if c % 2 == 1 then Xor(POLY, c / 2) else c / 2
  }

  function Steps(c: Word, k: nat): Word
    decreases k
  {
    if k == 0 then c else Steps(Step(c), k - 1)
  }

  // ---- the bit-by-bit definition ----

  type Bit = n: int | 0 <= n < 2

  /** Section 3.4 of RFC 2083: bits enter one by one, least significant first. */
  function Feed(c: Word, bits: seq<Bit>): Word
    decreases |bits|
  {
    if bits == [] then c else Feed(FeedOne(c, bits[0]), bits[1..])
  }

  function FeedOne(c: Word, b: Bit): Word {
    WordXor(POLY, c / 2);
    if c % 2 != b then Xor(POLY, c / 2) else c / 2
  }

  /** The k low bits of n, least significant first. */
  function BitsOf(n: nat, k: nat): (bits: seq<Bit>)
    ensures |bits| == k
  {
    if k == 0 then [] else [n % 2] + BitsOf(n / 2, k - 1)
  }

  function Message(buf: seq<Byte>): (bits: seq<Bit>)
    ensures |bits| == 8 * |buf|
  {
    if buf == [] then [] else BitsOf(buf[0], 8) + Message(buf[1..])
  }

  function Crc(buf: seq<Byte>): Word {
    var c := Feed(ALL_ONES, Message(buf));
    WordXor(c, ALL_ONES);
    Xor(c, ALL_ONES)
  }

  // ---- linearity ----

  lemma StepLinear(a: Word, b: Word)
    ensures Xor(a, b) < 0x1_0000_0000 && Xor(Step(a), Step(b)) == Step(Xor(a, b))
  {
    hide Xor;
    WordXor(a, b);
    XorHalf(a, b);
    var p, q := a / 2, b / 2;
    XorAssoc(POLY, p, q);
    XorAssoc(p, POLY, q);
    XorComm(p, POLY);
    XorAssoc(Xor(POLY, p), POLY, q);
    XorComm(Xor(POLY, p), POLY);
    XorAssoc(POLY, POLY, p);
    XorSelf(POLY);
    XorZero(p);
  }

  lemma {:induction false} StepsLinear(a: Word, b: Word, k: nat)
    ensures Xor(a, b) < 0x1_0000_0000 && Xor(Steps(a, k), Steps(b, k)) == Steps(Xor(a, b), k)
    decreases k
  {
    hide Xor, Step;
    WordXor(a, b);
    if k > 0 {
      StepLinear(a, b);
      StepsLinear(Step(a), Step(b), k - 1);
    }
  }

  /** A multiple of 2^k is only shifted by k steps. */
  lemma {:induction false} StepsShift(h: nat, k: nat)
    requires h * Pow2(k) < 0x1_0000_0000
    ensures Steps(h * Pow2(k), k) == h
  {
    hide Xor;
    if k > 0 {
      var c := h * Pow2(k);
      assert c == 2 * (h * Pow2(k - 1));
      StepsShift(h, k - 1);
    }
  }

  // ---- the table ----

  /** Entry n of the table: eight steps from n. */
  function Entry(n: Byte): Word { Steps(n, 8) }

  function TableStep(c: Word, y: Byte): Word {
    XorByte(c, y);
    WordXor(Entry(Xor(c, y) % 256), c / 256);
    Xor(Entry(Xor(c, y) % 256), c / 256)
  }

  /** A byte only reaches the low eight bits. */
  lemma XorByte(c: Word, y: Byte)
    ensures Xor(c, y) < 0x1_0000_0000 && Xor(c, y) / 256 == c / 256
  {
    hide Xor;
    Pow32();
    var low, high := c % 256, c / 256;
    XorDisjoint(low, high, 8);
    XorBound(low, y, 8);
    XorDisjoint(Xor(low, y), high, 8);
    XorComm(low, high * Pow2(8));
    XorAssoc(high * Pow2(8), low, y);
    XorComm(high * Pow2(8), Xor(low, y));
    WordXor(c, y);
  }

  lemma EightSteps(z: Word)
    ensures Steps(z, 8) == Xor(Entry(z % 256), z / 256)
  {
    hide Xor, Steps;
    Pow32();
    XorDisjoint(z % 256, z / 256, 8);
    StepsLinear(z % 256, z / 256 * 256, 8);
    StepsShift(z / 256, 8);
  }

  lemma FeedOneIsStep(c: Word, n: nat)
    requires n < 0x1_0000_0000
    ensures Xor(c, n) < 0x1_0000_0000 && Xor(FeedOne(c, n % 2), n / 2) == Step(Xor(c, n))
  {
    hide Xor;
    WordXor(c, n);
    XorHalf(c, n);
    XorAssoc(POLY, c / 2, n / 2);
  }

  /** Feeding the bits of n is stepping from c ^ n. */
  lemma {:induction false} FeedIsSteps(c: Word, n: nat, k: nat)
    requires n < Pow2(k) && k <= 32
    ensures Xor(c, n) < 0x1_0000_0000 && Feed(c, BitsOf(n, k)) == Steps(Xor(c, n), k)
    decreases k
  {
    hide Xor, Step, FeedOne;
    if k == 0 {
      XorZero(c);
    } else {
      PowWord(k);
      FeedOneIsStep(c, n);
      var bits := BitsOf(n, k);
      assert bits[1..] == BitsOf(n / 2, k - 1);
      FeedIsSteps(FeedOne(c, n % 2), n / 2, k - 1);
    }
  }

  lemma {:induction false} PowWord(k: nat)
    requires k <= 32
    ensures Pow2(k) <= 0x1_0000_0000
    decreases 32 - k
  {
    if k == 32 {
      Pow32();
    } else {
      PowWord(k + 1);
    }
  }

  /** One table lookup is eight bits of the definition. */
  lemma TableStepFeeds(c: Word, y: Byte)
    ensures TableStep(c, y) == Feed(c, BitsOf(y, 8))
  {
    hide Xor, Steps, Feed, BitsOf, Entry;
    Pow32();
    FeedIsSteps(c, y, 8);
    XorByte(c, y);
    EightSteps(Xor(c, y));
  }

  lemma {:induction false} FeedAppend(c: Word, u: seq<Bit>, v: seq<Bit>)
    ensures Feed(c, u + v) == Feed(Feed(c, u), v)
    decreases |u|
  {
    hide FeedOne;
    if u == [] {
      assert u + v == v;
    } else {
      assert (u + v)[1..] == u[1..] + v;
      FeedAppend(FeedOne(c, u[0]), u[1..], v);
    }
  }

  lemma {:induction false} MessageAppend(a: seq<Byte>, b: seq<Byte>)
    ensures Message(a + b) == Message(a) + Message(b)
  {
    hide BitsOf;
    if a == [] {
      assert a + b == b;
    } else {
      assert (a + b)[1..] == a[1..] + b;
      MessageAppend(a[1..], b);
    }
  }

  lemma MessageOne(y: Byte)
    ensures Message([y]) == BitsOf(y, 8)
  {
    hide BitsOf;
    assert Message([y][1..]) == [];
  }

  lemma EntryIs(n: Byte)
    ensures Entry(n) == Steps(n, 8)
  {
  }

  lemma StepsOnce(c: Word, k: nat)
    requires k > 0
    ensures Steps(c, k) == Steps(Step(c), k - 1)
  {
  }

  lemma StepsNone(c: Word)
    ensures Steps(c, 0) == c
  {
  }

  method CrcTable() returns (table: array<Word>)
    ensures table.Length == 256 && fresh(table) && forall n: Byte :: table[n] == Entry(n)
  {
    hide Xor, Steps, Entry;
    table := new Word[256](_ => 0);
    var n := 0;
    while n < 256
      invariant 0 <= n <= 256 && forall m: Byte :: m < n ==> table[m] == Entry(m)
    {
      var c: Word := n;
      var k := 0;
      EntryIs(n);
      while k < 8
        invariant 0 <= k <= 8 && Steps(c, 8 - k) == Entry(n)
        modifies {}
      {
        WordXor(POLY, c / 2);
        StepsOnce(c, 8 - k);
        c := if c % 2 == 1 then Xor(POLY, c / 2) else c / 2;
        k := k + 1;
      }
      StepsNone(c);
      table[n] := c;
      n := n + 1;
    }
  }

  /** The table-driven loop computes the bit-by-bit CRC of every buffer; `buf` is the part of
      an array from `from` up to `to`. */
  method Crc32(table: array<Word>, buf: array<Byte>, from: nat, to: nat) returns (crc: Word)
    requires table.Length == 256 && forall n: Byte :: table[n] == Entry(n)
    requires from <= to <= buf.Length
    ensures crc == Crc(buf[from..to])
  {
    hide Xor, Feed, Message, Entry;
    var c: Word := ALL_ONES;
    var i := from;
    FeedNothing(ALL_ONES);
    while i < to
      invariant from <= i <= to && c == Feed(ALL_ONES, Message(buf[from..i]))
    {
      XorByte(c, buf[i]);
      WordXor(table[Xor(c, buf[i]) % 256], c / 256);
      TableStepFeeds(c, buf[i]);
      MessageOne(buf[i]);
      MessageAppend(buf[from..i], [buf[i]]);
      assert buf[from..i + 1] == buf[from..i] + [buf[i]];
      FeedAppend(ALL_ONES, Message(buf[from..i]), BitsOf(buf[i], 8));
      c := Xor(table[Xor(c, buf[i]) % 256], c / 256);
      i := i + 1;
    }
    WordXor(c, ALL_ONES);
    crc := Xor(c, ALL_ONES);
  }

  lemma FeedNothing(c: Word)
    ensures Feed(c, Message([])) == c
  {
  }

  // ---- which errors the CRC always shows ----

  lemma {:induction false} XorCancels(a: nat, b: nat)
    requires Xor(a, b) == 0
    ensures a == b
    decreases a + b
  {
    hide Xor;
    XorHalf(a, b);
    if a != 0 || b != 0 {
      XorCancels(a / 2, b / 2);
    }
  }

  /** A step is a bijection on the 32-bit states. */
  lemma StepInjective(a: Word, b: Word)
    requires Step(a) == Step(b)
    ensures a == b
  {
    hide Xor;
    WordXor(a, b);
    var d := Xor(a, b);
    StepLinear(a, b);
    XorSelf(Step(a));
    if d % 2 == 1 {
      XorCancels(POLY, d / 2);
    }
    XorCancels(a, b);
  }

  lemma {:induction false} StepsInjective(a: Word, b: Word, k: nat)
    requires Steps(a, k) == Steps(b, k)
    ensures a == b
    decreases k
  {
    hide Step;
    if k > 0 {
      StepsInjective(Step(a), Step(b), k - 1);
      StepInjective(a, b);
    }
  }

  lemma XorLeftInjective(c: nat, a: nat, b: nat)
    requires Xor(c, a) == Xor(c, b)
    ensures a == b
  {
    hide Xor;
    XorSelf(c);
    XorAssoc(c, c, a);
    XorAssoc(c, c, b);
    XorZero(a);
    XorZero(b);
  }

  /** The number whose low bits these are. */
  function LittleEndian(bits: seq<Bit>): (n: nat)
    ensures n < Pow2(|bits|) && BitsOf(n, |bits|) == bits
  {
    if bits == [] then 0
    else
      ConsBit(bits[0], LittleEndian(bits[1..]), |bits| - 1);
      assert bits == [bits[0]] + bits[1..];
      bits[0] + 2 * LittleEndian(bits[1..])
  }

  lemma ConsBit(b: Bit, n: nat, k: nat)
    requires n < Pow2(k)
    ensures b + 2 * n < Pow2(k + 1) && BitsOf(b + 2 * n, k + 1) == [b] + BitsOf(n, k)
  {
    assert (b + 2 * n) % 2 == b && (b + 2 * n) / 2 == n;
  }

  /** From one state, different runs of at most 32 bits lead to different states. */
  lemma BurstShows(c: Word, u: seq<Bit>, v: seq<Bit>)
    requires |u| == |v| <= 32 && Feed(c, u) == Feed(c, v)
    ensures u == v
  {
    hide Xor, Feed, BitsOf, Steps, Pow2;
    var a, b := LittleEndian(u), LittleEndian(v);
    FeedIsSteps(c, a, |u|);
    FeedIsSteps(c, b, |v|);
    StepsInjective(Xor(c, a), Xor(c, b), |u|);
    XorLeftInjective(c, a, b);
  }

  lemma FeedOneInjective(a: Word, b: Word, bit: Bit)
    requires FeedOne(a, bit) == FeedOne(b, bit)
    ensures a == b
  {
    hide Xor, Step;
    FeedOneIsStep(a, bit);
    FeedOneIsStep(b, bit);
    XorZero(FeedOne(a, bit));
    XorZero(FeedOne(b, bit));
    StepInjective(Xor(a, bit), Xor(b, bit));
    XorComm(a, bit);
    XorComm(b, bit);
    XorLeftInjective(bit, a, b);
  }

  /** The same further bits never bring two states together. */
  lemma {:induction false} FeedInjective(a: Word, b: Word, bits: seq<Bit>)
    requires Feed(a, bits) == Feed(b, bits)
    ensures a == b
    decreases |bits|
  {
    hide FeedOne;
    if bits != [] {
      FeedInjective(FeedOne(a, bits[0]), FeedOne(b, bits[0]), bits[1..]);
      FeedOneInjective(a, b, bits[0]);
    }
  }

  lemma {:induction false} BitsInjective(a: nat, b: nat, k: nat)
    requires a < Pow2(k) && b < Pow2(k) && BitsOf(a, k) == BitsOf(b, k)
    ensures a == b
  {
    if k > 0 {
      assert BitsOf(a, k)[1..] == BitsOf(a / 2, k - 1) && BitsOf(b, k)[1..] == BitsOf(b / 2, k - 1);
      assert BitsOf(a, k)[0] == a % 2 && BitsOf(b, k)[0] == b % 2;
      BitsInjective(a / 2, b / 2, k - 1);
    }
  }

  lemma {:induction false} MessageInjective(a: seq<Byte>, b: seq<Byte>)
    requires |a| == |b| && Message(a) == Message(b)
    ensures a == b
  {
    hide BitsOf, Pow2;
    if a != [] {
      Pow32();
      assert Message(a)[..8] == BitsOf(a[0], 8) && Message(b)[..8] == BitsOf(b[0], 8);
      assert Message(a)[8..] == Message(a[1..]) && Message(b)[8..] == Message(b[1..]);
      BitsInjective(a[0], b[0], 8);
      MessageInjective(a[1..], b[1..]);
      assert a == [a[0]] + a[1..] && b == [b[0]] + b[1..];
    }
  }

  /** Two buffers of one length whose messages differ only within 32 consecutive bits never
      share a CRC, wherever the burst lies and however long the buffers are. */
  lemma BurstsAreDetected(a: seq<Byte>, b: seq<Byte>, p: nat, k: nat)
    requires |a| == |b| && a != b && k <= 32 && p + k <= 8 * |a|
    requires Message(a)[..p] == Message(b)[..p] && Message(a)[p + k..] == Message(b)[p + k..]
    ensures Crc(a) != Crc(b)
  {
    hide Xor, Feed, Message;
    var u, v := Message(a), Message(b);
    var c := Feed(ALL_ONES, u[..p]);
    SplitThree(u, p, k);
    SplitThree(v, p, k);
    FeedAppend(ALL_ONES, u[..p], u[p..p + k] + u[p + k..]);
    FeedAppend(ALL_ONES, v[..p], v[p..p + k] + v[p + k..]);
    FeedAppend(c, u[p..p + k], u[p + k..]);
    FeedAppend(c, v[p..p + k], v[p + k..]);
    if Crc(a) == Crc(b) {
      XorComm(Feed(ALL_ONES, u), ALL_ONES);
      XorComm(Feed(ALL_ONES, v), ALL_ONES);
      XorLeftInjective(ALL_ONES, Feed(ALL_ONES, u), Feed(ALL_ONES, v));
      FeedInjective(Feed(c, u[p..p + k]), Feed(c, v[p..p + k]), u[p + k..]);
      BurstShows(c, u[p..p + k], v[p..p + k]);
      MessageInjective(a, b);
      assert false;
    }
  }

  lemma SplitThree(u: seq<Bit>, p: nat, k: nat)
    requires p + k <= |u|
    ensures u == u[..p] + (u[p..p + k] + u[p + k..])
  {
  }

  /** Changing up to four neighbouring bytes is always seen. */
  lemma ByteChangesAreDetected(head: seq<Byte>, x: seq<Byte>, y: seq<Byte>, tail: seq<Byte>)
    requires |x| == |y| <= 4 && x != y
    ensures Crc(head + x + tail) != Crc(head + y + tail)
  {
    hide Crc, Message;
    var a, b := head + x + tail, head + y + tail;
    MessageAppend(head + x, tail);
    MessageAppend(head, x);
    MessageAppend(head + y, tail);
    MessageAppend(head, y);
    var p, k := 8 * |head|, 8 * |x|;
    assert a[|head|..|head| + |x|] == x && b[|head|..|head| + |x|] == y;
    assert Message(a)[..p] == Message(head) == Message(b)[..p];
    assert Message(a)[p + k..] == Message(tail) == Message(b)[p + k..];
    BurstsAreDetected(a, b, p, k);
  }

  // ---- the constants ----

  /** The generator of section 3.4 of RFC 2083 is x^32 + x^26 + x^23 + x^22 + x^16 + x^12 +
      x^11 + x^10 + x^8 + x^7 + x^5 + x^4 + x^2 + x + 1. The constant leaves out x^32 and has
      the coefficient of x^e in bit 31 - e. */
  lemma GeneratorIs()
    ensures POLY == Pow2(31 - 26) + Pow2(31 - 23) + Pow2(31 - 22) + Pow2(31 - 16) + Pow2(31 - 12)
      + Pow2(31 - 11) + Pow2(31 - 10) + Pow2(31 - 8) + Pow2(31 - 7) + Pow2(31 - 5) + Pow2(31 - 4)
      + Pow2(31 - 2) + Pow2(31 - 1) + Pow2(31 - 0)
  {
    hide Pow2;
    Powers();
  }

  lemma Powers()
    ensures Pow2(5) == 0x20 && Pow2(8) == 0x100 && Pow2(9) == 0x200 && Pow2(15) == 0x8000
    ensures Pow2(19) == 0x8_0000 && Pow2(20) == 0x10_0000 && Pow2(21) == 0x20_0000 && Pow2(23) == 0x80_0000
    ensures Pow2(24) == 0x100_0000 && Pow2(26) == 0x400_0000 && Pow2(27) == 0x800_0000
    ensures Pow2(29) == 0x2000_0000 && Pow2(30) == 0x4000_0000 && Pow2(31) == 0x8000_0000
  {
    assert Pow2(8) == 0x100;
    assert Pow2(16) == 0x1_0000;
    assert Pow2(24) == 0x100_0000;
  }

  lemma {:induction false} Ones(n: nat, k: nat)
    requires n < Pow2(k)
    ensures Xor(Pow2(k) - 1, n) == Pow2(k) - 1 - n
  {
    hide Xor;
    if k == 0 {
      XorZero(0);
    } else {
      XorHalf(Pow2(k) - 1, n);
      Ones(n / 2, k - 1);
    }
  }

  lemma Complement(n: Word)
    ensures Xor(ALL_ONES, n) == 0xffff_ffff - n
  {
    hide Xor;
    Pow32();
    Ones(n, 32);
  }

  /** The result is the complement of the register. */
  lemma CrcComplements(buf: seq<Byte>)
    ensures Crc(buf) == 0xffff_ffff - Feed(ALL_ONES, Message(buf))
  {
    hide Xor, Feed, Message;
    Complement(Feed(ALL_ONES, Message(buf)));
    XorComm(Feed(ALL_ONES, Message(buf)), ALL_ONES);
  }

  function Flip(bits: seq<Bit>): seq<Bit> {
    seq(|bits|, i requires 0 <= i < |bits| => 1 - bits[i])
  }

  lemma {:induction false} FlipBits(n: nat, k: nat)
    requires n < Pow2(k)
    ensures Flip(BitsOf(n, k)) == BitsOf(Pow2(k) - 1 - n, k)
  {
    if k > 0 {
      var rest := Pow2(k - 1) - 1 - n / 2;
      assert Pow2(k) - 1 - n == 2 * rest + 1 - n % 2;
      FlipBits(n / 2, k - 1);
      assert BitsOf(n, k) == [n % 2] + BitsOf(n / 2, k - 1);
      assert Flip(BitsOf(n, k)) == [1 - n % 2] + Flip(BitsOf(n / 2, k - 1));
    }
  }

  lemma FirstBitsFlipped(bits: seq<Bit>)
    requires |bits| >= 32
    ensures Feed(ALL_ONES, bits) == Feed(0, Flip(bits[..32]) + bits[32..])
  {
    hide Xor, Feed, BitsOf, Steps;
    Pow32();
    var n := LittleEndian(bits[..32]);
    FlipBits(n, 32);
    var m := 0xffff_ffff - n;
    FeedIsSteps(ALL_ONES, n, 32);
    FeedIsSteps(0, m, 32);
    Complement(n);
    XorZero(m);
    FeedAppend(ALL_ONES, bits[..32], bits[32..]);
    FeedAppend(0, Flip(bits[..32]), bits[32..]);
    assert bits == bits[..32] + bits[32..];
  }

  /** The CRC as that section has it: the register starts from zero, the first 32 bits go in
      complemented, and so does the result. */
  lemma CrcFromZero(buf: seq<Byte>)
    requires |buf| >= 4
    ensures Crc(buf) == 0xffff_ffff - Feed(0, Flip(Message(buf)[..32]) + Message(buf)[32..])
  {
    hide Crc, Feed, Message;
    CrcComplements(buf);
    FirstBitsFlipped(Message(buf));
  }

  // ---- PNG chunks ----

  /** writeUInt32BE */
  function BigEndian(n: nat, k: nat): (bytes: seq<Byte>)
    ensures |bytes| == k
  {
    if k == 0 then [] else BigEndian(n / 256, k - 1) + [n % 256]
  }

  function FromBigEndian(bytes: seq<Byte>): nat {
    if bytes == [] then 0 else 256 * FromBigEndian(bytes[..|bytes| - 1]) + bytes[|bytes| - 1]
  }

  function Pow256(k: nat): nat { if k == 0 then 1 else 256 * Pow256(k - 1) }

  lemma {:induction false} BigEndianBack(n: nat, k: nat)
    requires n < Pow256(k)
    ensures FromBigEndian(BigEndian(n, k)) == n
  {
    if k > 0 {
      BigEndianBack(n / 256, k - 1);
      var bytes := BigEndian(n, k);
      assert bytes[..|bytes| - 1] == BigEndian(n / 256, k - 1);
    }
  }

  lemma FourBytes(n: Word)
    ensures FromBigEndian(BigEndian(n, 4)) == n
  {
    assert Pow256(4) == 0x1_0000_0000;
    BigEndianBack(n, 4);
  }

  /** Length, type, data, and the CRC of type and data. */
  function ChunkOf(kind: seq<Byte>, data: seq<Byte>): seq<Byte>
    requires |data| < 0x1_0000_0000
  {
    BigEndian(|data|, 4) + kind + data + BigEndian(Crc(kind + data), 4)
  }

  /** A decoder's view of a chunk: its type and data, if its length and CRC agree. */
  function ReadChunk(c: seq<Byte>): Option<(seq<Byte>, seq<Byte>)> {
    if |c| < 12 || FromBigEndian(c[..4]) != |c| - 12 then None
    else if FromBigEndian(c[|c| - 4..]) != Crc(c[4..|c| - 4]) then None
    else Some((c[4..8], c[8..|c| - 4]))
  }

  /** writeUInt32BE throws for a length of 2^32 or more. */
  method Chunk(table: array<Word>, kind: seq<Byte>, data: array<Byte>) returns (out: Option<array<Byte>>)
    requires table.Length == 256 && forall n: Byte :: table[n] == Entry(n)
    requires |kind| == 4
    ensures out.None? <==> data.Length >= 0x1_0000_0000
    ensures out.Some? ==> fresh(out.value) && out.value[..] == ChunkOf(kind, data[..])
  {
    hide Crc, BigEndian;
    var n := data.Length;
    if n >= 0x1_0000_0000 {
      return None;
    }
    var buf := new Byte[12 + n](_ => 0);
    FillChunk(buf, kind, data);
    ghost var head, body := BigEndian(n, 4), kind + data[..];
    assert buf[4..8 + n] == buf[..8 + n][4..] == body;
    var crc := Crc32(table, buf, 4, 8 + n);
    WriteUInt32BE(buf, crc, 8 + n);
    assert head + body == head + kind + data[..];
    out := Some(buf);
  }

  /** Everything but the CRC. */
  method FillChunk(buf: array<Byte>, kind: seq<Byte>, data: array<Byte>)
    requires buf != data && buf.Length == 12 + data.Length && |kind| == 4 && data.Length < 0x1_0000_0000
    modifies buf
    ensures buf[..8 + data.Length] == BigEndian(data.Length, 4) + (kind + data[..])
  {
    hide BigEndian;
    var n := data.Length;
    ghost var head, s0 := BigEndian(n, 4), buf[..];
    WriteUInt32BE(buf, n, 0);
    ghost var s1 := buf[..];
    Grow(s0, s1, [], head);
    PutBytes(buf, kind, 4);
    ghost var s2 := buf[..];
    Grow(s1, s2, head, kind);
    PutBytes(buf, data[..], 8);
    ghost var s3 := buf[..];
    Grow(s2, s3, head + kind, data[..]);
    assert head + kind + data[..] == head + (kind + data[..]);
    assert [] + head == head && buf[..8 + n] == s3[..8 + n];
  }

  /** Bytes written right behind a front join it. */
  lemma Grow(before: seq<Byte>, after: seq<Byte>, front: seq<Byte>, bytes: seq<Byte>)
    requires |front| + |bytes| <= |before| && before[..|front|] == front
    requires after == before[..|front|] + bytes + before[|front| + |bytes|..]
    ensures after[..|front| + |bytes|] == front + bytes
  {
  }

  method PutBytes(buf: array<Byte>, bytes: seq<Byte>, at: nat)
    requires at + |bytes| <= buf.Length
    modifies buf
    ensures buf[..] == old(buf[..at]) + bytes + old(buf[at + |bytes|..])
  {
    forall i | 0 <= i < |bytes| {
      buf[at + i] := bytes[i];
    }
  }

  method WriteUInt32BE(buf: array<Byte>, n: Word, at: nat)
    requires at + 4 <= buf.Length
    modifies buf
    ensures buf[..] == old(buf[..at]) + BigEndian(n, 4) + old(buf[at + 4..])
  {
    buf[at] := n / 256 / 256 / 256;
    buf[at + 1] := n / 256 / 256 % 256;
    buf[at + 2] := n / 256 % 256;
    buf[at + 3] := n % 256;
    FourDigits(n);
  }

  lemma FourDigits(n: Word)
    ensures BigEndian(n, 4) == [n / 256 / 256 / 256, n / 256 / 256 % 256, n / 256 % 256, n % 256]
  {
    assert BigEndian(n / 256 / 256 / 256, 1) == [n / 256 / 256 / 256];
    assert BigEndian(n / 256 / 256, 2) == BigEndian(n / 256 / 256 / 256, 1) + [n / 256 / 256 % 256];
    assert BigEndian(n / 256, 3) == BigEndian(n / 256 / 256, 2) + [n / 256 % 256];
  }

  /** A chunk reads back as its type and data. */
  lemma ChunkReadsBack(kind: seq<Byte>, data: seq<Byte>)
    requires |kind| == 4 && |data| < 0x1_0000_0000
    ensures ReadChunk(ChunkOf(kind, data)) == Some((kind, data))
  {
    hide Crc, BigEndian, FromBigEndian;
    var c := ChunkOf(kind, data);
    FourBytes(|data|);
    FourBytes(Crc(kind + data));
    assert c[..4] == BigEndian(|data|, 4);
    assert c[|c| - 4..] == BigEndian(Crc(kind + data), 4);
    assert c[4..|c| - 4] == kind + data && c[4..8] == kind && c[8..|c| - 4] == data;
  }

  /** A chunk whose type and data are altered in up to four neighbouring bytes is rejected. */
  lemma AlteredChunkIsRejected(kind: seq<Byte>, data: seq<Byte>, head: seq<Byte>, x: seq<Byte>, y: seq<Byte>, tail: seq<Byte>)
    requires |kind| == 4 && |data| < 0x1_0000_0000 && kind + data == head + x + tail && |x| == |y| <= 4 && x != y
    ensures ReadChunk(BigEndian(|data|, 4) + (head + y + tail) + BigEndian(Crc(kind + data), 4)) == None
  {
    hide Crc, BigEndian, FromBigEndian;
    var body := head + y + tail;
    assert |body| == |kind + data|;
    var c := BigEndian(|data|, 4) + body + BigEndian(Crc(kind + data), 4);
    FourBytes(Crc(kind + data));
    assert c[|c| - 4..] == BigEndian(Crc(kind + data), 4) && c[4..|c| - 4] == body;
    ByteChangesAreDetected(head, x, y, tail);
  }
}
