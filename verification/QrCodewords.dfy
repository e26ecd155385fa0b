/** buildCodewords of qr.ts and a reader that undoes it. */
module QrCodewords {
  import opened Bits
  import opened Gf256
  import opened ReedSolomon
  import opened QrCapacity
  import opened Wrappers

  type Bit = b: int | 0 <= b < 2

  // ---- bits ----

  /** `put(val, len)`: the low len bits, most significant first */
  function PutBits(val: nat, len: nat): (s: seq<Bit>)
    ensures |s| == len
  {
    seq(len, i requires 0 <= i < len => BitAt(val, len - 1 - i))
  }

  function Zero(n: nat): (s: seq<Bit>)
    ensures |s| == n
  {
    seq(n, i => 0)
  }

  /** The number a bit string stands for. */
  function Number(s: seq<Bit>): nat {
    if s == [] then 0 else 2 * Number(s[..|s| - 1]) + s[|s| - 1]
  }

  lemma {:induction false} NumberOfPut(val: nat, len: nat)
    requires val < Pow2(len)
    ensures Number(PutBits(val, len)) == val
  {
    hide BitAt;
    if len > 0 {
      var s := PutBits(val, len);
      forall i | 0 <= i < len - 1
        ensures s[i] == BitAt(val / 2, len - 2 - i)
      {
        BitShift(val, len - 2 - i);
      }
      assert s[..len - 1] == PutBits(val / 2, len - 1);
      NumberOfPut(val / 2, len - 1);
      BitShift(val, 0);
    }
  }

  lemma BitShift(v: nat, i: nat)
    ensures BitAt(v, i + 1) == BitAt(v / 2, i) && BitAt(v, 0) == v % 2
  {
  }

  lemma {:induction false} PutOfNumber(s: seq<Bit>)
    ensures Number(s) < Pow2(|s|) && PutBits(Number(s), |s|) == s
  {
    hide BitAt;
    if s != [] {
      var t, b := s[..|s| - 1], s[|s| - 1];
      PutOfNumber(t);
      var v := Number(s);
      assert v / 2 == Number(t) && v % 2 == b;
      forall i | 0 <= i < |s|
        ensures PutBits(v, |s|)[i] == s[i]
      {
        if i == |s| - 1 {
          BitShift(v, 0);
        } else {
          BitShift(v, |s| - 2 - i);
          assert PutBits(Number(t), |t|)[i] == t[i];
        }
      }
    }
  }

  /** Eight bits to a codeword. */
  function Pack(bits: seq<Bit>): (r: seq<Byte>)
    requires |bits| % 8 == 0
    ensures |r| == |bits| / 8
  {
    if bits == [] then []
    else
      var n := |bits| - 8;
      PutOfNumber(bits[n..]);
      Pow8();
      Pack(bits[..n]) + [Number(bits[n..])]
  }

  lemma Pow8()
    ensures Pow2(8) == 256 && Pow2(16) == 65536
  {
    assert Pow2(12) == 4096;
  }

  function Unpack(bytes: seq<Byte>): (s: seq<Bit>)
    ensures |s| == 8 * |bytes|
  {
    if bytes == [] then [] else Unpack(bytes[..|bytes| - 1]) + PutBits(bytes[|bytes| - 1], 8)
  }

  lemma PackSnoc(front: seq<Bit>, back: seq<Bit>)
    requires |front| % 8 == 0 && |back| == 8
    ensures Number(back) < 256 && Pack(front + back) == Pack(front) + [Number(back)]
  {
    hide PutBits, Number;
    PutOfNumber(back);
    Pow8();
    var bits := front + back;
    assert bits[..|front|] == front && bits[|front|..] == back;
  }

  lemma UnpackSnoc(front: seq<Byte>, last: Byte)
    ensures Unpack(front + [last]) == Unpack(front) + PutBits(last, 8)
  {
    hide PutBits;
    assert (front + [last])[..|front|] == front;
  }

  lemma {:induction false} UnpackOfPack(bits: seq<Bit>)
    requires |bits| % 8 == 0
    ensures Unpack(Pack(bits)) == bits
  {
    hide PutBits, Number, Pack, Unpack;
    if bits == [] {
      NothingPacked();
    } else {
      var n := |bits| - 8;
      var front, back := bits[..n], bits[n..];
      assert bits == front + back;
      UnpackOfPack(front);
      PackSnoc(front, back);
      UnpackSnoc(Pack(front), Number(back));
      PutOfNumber(back);
    }
  }

  lemma NothingPacked()
    ensures Pack([]) == [] && Unpack([]) == []
  {
  }

  lemma {:induction false} PackOfUnpack(bytes: seq<Byte>)
    ensures Pack(Unpack(bytes)) == bytes
  {
    hide PutBits, Number, Pack, Unpack;
    if bytes == [] {
      NothingPacked();
    } else {
      var n := |bytes| - 1;
      var front, last := bytes[..n], bytes[n];
      assert bytes == front + [last];
      PackOfUnpack(front);
      UnpackSnoc(front, last);
      Pow8();
      NumberOfPut(last, 8);
      PackSnoc(Unpack(front), PutBits(last, 8));
    }
  }

  lemma {:induction false} UnpackAppend(a: seq<Byte>, b: seq<Byte>)
    ensures Unpack(a + b) == Unpack(a) + Unpack(b)
  {
    hide PutBits;
    if b == [] {
      assert a + b == a;
    } else {
      var n := |b| - 1;
      assert (a + b)[..|a| + n] == a + b[..n];
      UnpackAppend(a, b[..n]);
    }
  }

  // ---- the data codewords ----

  function Header(n: nat, ver: Version): (s: seq<Bit>)
    ensures |s| == 4 + CountBits(ver)
  {
    PutBits(4, 4) + PutBits(n, CountBits(ver))
  }

  function Min(a: int, b: int): int { if a < b then a else b }

  /** Mode, count, bytes, terminator, and zeros up to a whole codeword. */
  function Stream(bytes: seq<Byte>, ver: Version): (s: seq<Bit>)
    requires Fits(|bytes|, ver)
    ensures |s| % 8 == 0 && |s| <= 8 * DataCodewords(ver)
  {
    var s := Header(|bytes|, ver) + Unpack(bytes);
    var t := s + Zero(Min(4, DataCodewords(ver) * 8 - |s|));
    WholeCodewords(|t|, DataCodewords(ver));
    t + Zero((8 - |t| % 8) % 8)
  }

  /** Filling up to a whole codeword stays within the capacity. */
  lemma WholeCodewords(n: nat, cap: nat)
    ensures (n + (8 - n % 8) % 8) % 8 == 0
    ensures n <= 8 * cap ==> n + (8 - n % 8) % 8 <= 8 * cap
  {
  }

  /** `pad ^= 0xec ^ 0x11` */
  function OtherPad(pad: int): int { if pad == 0xec then 0x11 else 0xec }

  lemma PadToggle()
    ensures Xor(0xec, Xor(0xec, 0x11)) == OtherPad(0xec) && Xor(0x11, Xor(0xec, 0x11)) == OtherPad(0x11)
  {
    hide Xor;
    XorAssoc(0xec, 0xec, 0x11);
    XorSelf(0xec);
    XorZero(0x11);
    XorComm(0xec, 0x11);
    XorAssoc(0x11, 0x11, 0xec);
    XorSelf(0x11);
    XorZero(0xec);
  }

  function Pads(n: nat, pad: Byte): (r: seq<Byte>)
    requires pad == 0xec || pad == 0x11
    ensures |r| == n
  {
    if n == 0 then [] else [pad] + Pads(n - 1, OtherPad(pad))
  }

  function Data(bytes: seq<Byte>, ver: Version): (d: seq<Byte>)
    requires Fits(|bytes|, ver)
    ensures |d| == DataCodewords(ver)
  {
    var p := Pack(Stream(bytes, ver));
    p + Pads(DataCodewords(ver) - |p|, 0xec)
  }

  /** What section 7.4.9 and 7.4.10 ask behind the first `used` bits: up to four zero bits, zero
      bits up to a whole codeword, and 236 and 17 in turn. */
  predicate WellFilled(data: seq<Byte>, used: nat) {
    var first := (Min(used + 4, 8 * |data|) + 7) / 8;
    && (forall i :: used <= i < 8 * first && i < 8 * |data| ==> Unpack(data)[i] == 0)
    && (forall k :: first <= k < |data| ==> data[k] == if (k - first) % 2 == 0 then 236 else 17)
  }

  /** The reader of the data codewords: mode 0100, count, that many bytes, and the filling. */
  function ReadData(data: seq<Byte>, ver: Version): Option<seq<Byte>> {
    hide Unpack, Number, Pack;
    var bits := Unpack(data);
    var h := 4 + CountBits(ver);
    if |bits| < h || Number(bits[..4]) != 4 then None
    else
      var n := Number(bits[4..h]);
      assert 8 * n % 8 == 0;
      if h + 8 * n > |bits| || !WellFilled(data, h + 8 * n) then None else Some(Pack(bits[h..h + 8 * n]))
  }

  lemma StreamPrefix(bytes: seq<Byte>, ver: Version)
    requires Fits(|bytes|, ver)
    ensures Header(|bytes|, ver) + Unpack(bytes) <= Stream(bytes, ver)
  {
    hide Header, Unpack;
  }

  lemma PadsTwice(pad: Byte)
    requires pad == 0xec || pad == 0x11
    ensures OtherPad(pad) == 0xec || OtherPad(pad) == 0x11
    ensures OtherPad(OtherPad(pad)) == pad
  {
  }

  lemma {:induction false} PadsAlternate(n: nat, pad: Byte, k: nat)
    requires (pad == 0xec || pad == 0x11) && k < n
    ensures Pads(n, pad)[k] == if k % 2 == 0 then pad else OtherPad(pad)
  {
    hide OtherPad;
    PadsTwice(pad);
    assert Pads(n, pad) == [pad] + Pads(n - 1, OtherPad(pad));
    if k > 0 {
      PadsAlternate(n - 1, OtherPad(pad), k - 1);
      assert k % 2 == 0 <==> (k - 1) % 2 != 0;
    }
  }

  lemma StreamLength(bytes: seq<Byte>, ver: Version)
    requires Fits(|bytes|, ver)
    ensures var used := 4 + CountBits(ver) + 8 * |bytes|;
      && |Stream(bytes, ver)| == (Min(used + 4, 8 * DataCodewords(ver)) + 7) / 8 * 8
      && forall i :: used <= i < |Stream(bytes, ver)| ==> Stream(bytes, ver)[i] == 0
  {
    hide Header, Unpack, DataCodewords, CountBits;
  }

  lemma DataFilled(bytes: seq<Byte>, ver: Version)
    requires Fits(|bytes|, ver)
    ensures WellFilled(Data(bytes, ver), 4 + CountBits(ver) + 8 * |bytes|)
  {
    hide PutBits, Number, Stream, Pack, Pads, Unpack, DataCodewords, CountBits, Header;
    var stream := Stream(bytes, ver);
    var p := Pack(stream);
    var data := Data(bytes, ver);
    StreamLength(bytes, ver);
    UnpackAppend(p, Pads(DataCodewords(ver) - |p|, 0xec));
    UnpackOfPack(stream);
    assert stream <= Unpack(data);
    forall k | |p| <= k < |data|
      ensures data[k] == if (k - |p|) % 2 == 0 then 236 else 17
    {
      PadsAlternate(DataCodewords(ver) - |p|, 0xec, k - |p|);
    }
  }

  lemma ReadDataBack(bytes: seq<Byte>, ver: Version)
    requires Fits(|bytes|, ver)
    ensures ReadData(Data(bytes, ver), ver) == Some(bytes)
  {
    hide PutBits, Number, Stream, Pack, Pads, Unpack, DataCodewords, WellFilled;
    var n, c := |bytes|, CountBits(ver);
    var h := 4 + c;
    var stream := Stream(bytes, ver);
    var p := Pack(stream);
    var bits := Unpack(Data(bytes, ver));
    UnpackAppend(p, Pads(DataCodewords(ver) - |p|, 0xec));
    UnpackOfPack(stream);
    StreamPrefix(bytes, ver);
    var front := Header(n, ver) + Unpack(bytes);
    assert front <= bits;
    assert bits[..4] == front[..4] == PutBits(4, 4);
    assert bits[4..h] == front[4..h] == PutBits(n, c);
    assert bits[h..h + 8 * n] == front[h..h + 8 * n] == Unpack(bytes);
    NumberFour();
    CountFits(n, ver);
    Pow8();
    NumberOfPut(n, c);
    PackOfUnpack(bytes);
    DataFilled(bytes, ver);
  }

  lemma NumberFour()
    ensures Number(PutBits(4, 4)) == 4
  {
    NumberOfPut(4, 4);
  }

  // ---- blocks ----

  /** Data codewords of a short block. */
  function ShortData(ver: Version): nat {
    Shares(ver);
    ShortLen(ver) - EccLen(ver)
  }

  function DataLen(ver: Version, j: nat): nat { ShortData(ver) + (if j < NumShort(ver) then 0 else 1) }

  function BlockStart(ver: Version, j: nat): nat {
    if j == 0 then 0 else BlockStart(ver, j - 1) + DataLen(ver, j - 1)
  }

  /** The data of the blocks before block j: every short block takes as much, a long one a byte more. */
  lemma {:induction false} BlockStartClosed(ver: Version, j: nat)
    ensures BlockStart(ver, j) == j * ShortData(ver) + (if j <= NumShort(ver) then 0 else j - NumShort(ver))
  {
    hide ShortData, NumShort;
    if j > 0 {
      BlockStartClosed(ver, j - 1);
      assert j * ShortData(ver) == (j - 1) * ShortData(ver) + ShortData(ver);
    }
    assert NumShort(ver) > 0 by { Shares(ver); }
  }

  lemma {:induction false} BlockStartMonotone(ver: Version, i: nat, j: nat)
    requires i <= j
    ensures BlockStart(ver, i) <= BlockStart(ver, j)
  {
    if i < j {
      BlockStartMonotone(ver, i, j - 1);
    }
  }

  lemma BlockInside(ver: Version, j: nat)
    requires j < NumBlocks(ver)
    ensures BlockStart(ver, j) + DataLen(ver, j) <= DataCodewords(ver)
    ensures BlockStart(ver, NumBlocks(ver)) == DataCodewords(ver)
  {
    hide ShortData, NumShort, NumBlocks, DataCodewords, BlockStart, ShortLen, EccLen;
    BlockStartClosed(ver, NumBlocks(ver));
    Shares(ver);
    ShortDataIs(ver);
    BlockStartMonotone(ver, j + 1, NumBlocks(ver));
    BlockStartNext(ver, j);
  }

  lemma ShortDataIs(ver: Version)
    ensures ShortData(ver) == ShortLen(ver) - EccLen(ver)
  {
  }

  lemma BlockStartNext(ver: Version, j: nat)
    ensures BlockStart(ver, j + 1) == BlockStart(ver, j) + DataLen(ver, j)
  {
  }

  function BlockData(data: seq<Byte>, ver: Version, j: nat): (d: seq<Byte>)
    requires |data| == DataCodewords(ver) && j < NumBlocks(ver)
    ensures |d| == DataLen(ver, j)
  {
    BlockInside(ver, j);
    data[BlockStart(ver, j)..BlockStart(ver, j) + DataLen(ver, j)]
  }

  function Ecc(dat: seq<Byte>, ver: Version): (e: seq<Byte>)
    ensures |e| == EccLen(ver)
  {
    Shares(ver);
    EccPositive(ver);
    Remainder(dat, Low(Generator(EccLen(ver)), EccLen(ver)))
  }

  lemma EccPositive(ver: Version)
    ensures EccLen(ver) >= 7
  {
  }

  /** One entry of `blocks`; a short block has a filler 0 between data and ecc. */
  function Block(data: seq<Byte>, ver: Version, j: nat): (b: seq<Byte>)
    requires |data| == DataCodewords(ver) && j < NumBlocks(ver)
    ensures |b| == ShortLen(ver) + 1
  {
    var dat := BlockData(data, ver, j);
    ShortDataIs(ver);
    (if j < NumShort(ver) then dat + [0] else dat) + Ecc(dat, ver)
  }

  function Blocks(data: seq<Byte>, ver: Version): (b: seq<seq<Byte>>)
    requires |data| == DataCodewords(ver)
    ensures |b| == NumBlocks(ver) && forall j :: 0 <= j < |b| ==> |b[j]| == ShortLen(ver) + 1
  {
    seq(NumBlocks(ver), j requires 0 <= j < NumBlocks(ver) => Block(data, ver, j))
  }

  // ---- interleaving ----

  /** The row of fillers holds the long blocks only. */
  function FirstInRow(ver: Version, i: nat): (f: nat)
    ensures f <= NumBlocks(ver)
  {
    Shares(ver);
    if i == ShortData(ver) then NumShort(ver) else 0
  }

  function Row(blocks: seq<seq<Byte>>, ver: Version, i: nat): (r: seq<Byte>)
    requires |blocks| == NumBlocks(ver) && forall j :: 0 <= j < |blocks| ==> |blocks[j]| == ShortLen(ver) + 1
    requires i <= ShortLen(ver)
    ensures |r| == NumBlocks(ver) - FirstInRow(ver, i)
  {
    var f := FirstInRow(ver, i);
    seq(|blocks| - f, k requires 0 <= k < |blocks| - f => blocks[f + k][i])
  }

  function Rows(blocks: seq<seq<Byte>>, ver: Version, n: nat): (r: seq<Byte>)
    requires |blocks| == NumBlocks(ver) && forall j :: 0 <= j < |blocks| ==> |blocks[j]| == ShortLen(ver) + 1
    requires n <= ShortLen(ver) + 1
    ensures |r| == RowStart(ver, n)
  {
    if n == 0 then [] else Rows(blocks, ver, n - 1) + Row(blocks, ver, n - 1)
  }

  /** Where row i begins in the interleaved stream. */
  function RowStart(ver: Version, i: nat): nat {
    if i == 0 then 0 else RowStart(ver, i - 1) + NumBlocks(ver) - FirstInRow(ver, i - 1)
  }

  lemma {:induction false} RowStartClosed(ver: Version, i: nat)
    ensures RowStart(ver, i) == i * NumBlocks(ver) - (if i <= ShortData(ver) then 0 else NumShort(ver))
  {
    hide ShortData, NumShort, NumBlocks;
    if i > 0 {
      RowStartClosed(ver, i - 1);
      assert i * NumBlocks(ver) == (i - 1) * NumBlocks(ver) + NumBlocks(ver);
    }
  }

  lemma Commutes(x: nat, y: nat)
    ensures x * y == y * x
  {
  }

  lemma RowStartEnd(ver: Version)
    ensures RowStart(ver, ShortLen(ver) + 1) == RawCodewords(ver)
  {
    hide RowStart, NumShort, NumBlocks, ShortLen, RawCodewords, EccLen, ShortData, DataCodewords;
    RowStartClosed(ver, ShortLen(ver) + 1);
    Commutes(ShortLen(ver) + 1, NumBlocks(ver));
    ShortDataIs(ver);
    EccPositive(ver);
    Shares(ver);
  }

  lemma {:induction false} RowStartMonotone(ver: Version, i: nat, j: nat)
    requires i <= j
    ensures RowStart(ver, i) <= RowStart(ver, j)
  {
    if i < j {
      RowStartMonotone(ver, i, j - 1);
    }
  }

  /** Place of entry i of block j in the interleaved stream. */
  function Position(ver: Version, i: nat, j: nat): (p: nat)
    requires i <= ShortLen(ver) && FirstInRow(ver, i) <= j < NumBlocks(ver)
    ensures p < RawCodewords(ver)
  {
    RowStartMonotone(ver, i + 1, ShortLen(ver) + 1);
    RowStartEnd(ver);
    RowStart(ver, i) + j - FirstInRow(ver, i)
  }

  /** Section 7.6: first byte of every block, second byte of every block, and so on; the
      column of fillers has a byte of the long blocks only. */
  lemma PositionIs(ver: Version, i: nat, j: nat)
    requires i <= ShortLen(ver) && FirstInRow(ver, i) <= j < NumBlocks(ver)
    ensures Position(ver, i, j) == i * NumBlocks(ver) + j - (if i < ShortData(ver) then 0 else NumShort(ver))
  {
    hide RowStart, NumBlocks, NumShort, ShortData, ShortLen;
    RowStartClosed(ver, i);
  }

  lemma RowsSplit(blocks: seq<seq<Byte>>, ver: Version, n: nat)
    requires |blocks| == NumBlocks(ver) && forall j :: 0 <= j < |blocks| ==> |blocks[j]| == ShortLen(ver) + 1
    requires n <= ShortLen(ver)
    ensures Rows(blocks, ver, n + 1) == Rows(blocks, ver, n) + Row(blocks, ver, n)
    ensures RowStart(ver, n + 1) == RowStart(ver, n) + |Row(blocks, ver, n)|
  {
    hide FirstInRow, NumBlocks, ShortLen, RawCodewords;
  }

  lemma {:induction false} RowsAt(blocks: seq<seq<Byte>>, ver: Version, n: nat, i: nat, j: nat)
    requires |blocks| == NumBlocks(ver) && forall j :: 0 <= j < |blocks| ==> |blocks[j]| == ShortLen(ver) + 1
    requires i < n <= ShortLen(ver) + 1 && FirstInRow(ver, i) <= j < NumBlocks(ver)
    ensures Position(ver, i, j) < RowStart(ver, n)
    ensures Rows(blocks, ver, n)[Position(ver, i, j)] == blocks[j][i]
  {
    hide FirstInRow, NumBlocks, ShortLen, RawCodewords, RawModules, Rows, RowStart;
    RowsSplit(blocks, ver, n - 1);
    if i == n - 1 {
      assert Row(blocks, ver, i)[j - FirstInRow(ver, i)] == blocks[j][i];
    } else {
      RowsAt(blocks, ver, n - 1, i, j);
    }
  }

  function Codewords(bytes: seq<Byte>, ver: Version): (c: seq<Byte>)
    requires Fits(|bytes|, ver)
    ensures |c| == RawCodewords(ver)
  {
    RowStartEnd(ver);
    Rows(Blocks(Data(bytes, ver), ver), ver, ShortLen(ver) + 1)
  }

  // ---- the reader ----

  lemma RowsOfBlock(ver: Version, j: nat, i: nat)
    requires j < NumBlocks(ver)
    ensures i < DataLen(ver, j) ==> i <= ShortLen(ver) && FirstInRow(ver, i) <= j
    ensures i < EccLen(ver) ==> ShortData(ver) + 1 + i <= ShortLen(ver) && FirstInRow(ver, ShortData(ver) + 1 + i) <= j
  {
    ShortDataIs(ver);
    EccPositive(ver);
  }

  function ReadBlockData(c: seq<Byte>, ver: Version, j: nat): (d: seq<Byte>)
    requires |c| == RawCodewords(ver) && j < NumBlocks(ver)
    ensures |d| == DataLen(ver, j)
  {
    seq(DataLen(ver, j), i requires 0 <= i < DataLen(ver, j) => RowsOfBlock(ver, j, i); c[Position(ver, i, j)])
  }

  function ReadBlockEcc(c: seq<Byte>, ver: Version, j: nat): (d: seq<Byte>)
    requires |c| == RawCodewords(ver) && j < NumBlocks(ver)
    ensures |d| == EccLen(ver)
  {
    seq(EccLen(ver), i requires 0 <= i < EccLen(ver) =>
      RowsOfBlock(ver, j, i); c[Position(ver, ShortData(ver) + 1 + i, j)])
  }

  function ReadBlocks(c: seq<Byte>, ver: Version, n: nat): (d: seq<Byte>)
    requires |c| == RawCodewords(ver) && n <= NumBlocks(ver)
  {
    if n == 0 then [] else ReadBlocks(c, ver, n - 1) + ReadBlockData(c, ver, n - 1)
  }

  /** Codewords back to bytes: de-interleave, then mode, count and bytes. */
  function Decode(c: seq<Byte>, ver: Version): Option<seq<Byte>>
    requires |c| == RawCodewords(ver)
  {
    ReadData(ReadBlocks(c, ver, NumBlocks(ver)), ver)
  }

  lemma ReadBlockBack(bytes: seq<Byte>, ver: Version, j: nat)
    requires Fits(|bytes|, ver) && j < NumBlocks(ver)
    ensures var dat := BlockData(Data(bytes, ver), ver, j);
            && ReadBlockData(Codewords(bytes, ver), ver, j) == dat
            && ReadBlockEcc(Codewords(bytes, ver), ver, j) == Ecc(dat, ver)
  {
    hide Data, Rows, BlockData, Ecc, Fits, FirstInRow, NumBlocks, ShortLen, EccLen, RawCodewords,
         DataCodewords, Position, NumShort, ShortData, RowStart;
    var blocks := Blocks(Data(bytes, ver), ver);
    var dat := BlockData(Data(bytes, ver), ver, j);
    var e := Ecc(dat, ver);
    ShortDataIs(ver);
    forall i | 0 <= i < DataLen(ver, j)
      ensures ReadBlockData(Codewords(bytes, ver), ver, j)[i] == dat[i]
    {
      RowsOfBlock(ver, j, i);
      RowsAt(blocks, ver, ShortLen(ver) + 1, i, j);
      assert blocks[j] == Block(Data(bytes, ver), ver, j);
    }
    forall i | 0 <= i < EccLen(ver)
      ensures ReadBlockEcc(Codewords(bytes, ver), ver, j)[i] == e[i]
    {
      RowsOfBlock(ver, j, i);
      RowsAt(blocks, ver, ShortLen(ver) + 1, ShortData(ver) + 1 + i, j);
      assert blocks[j] == Block(Data(bytes, ver), ver, j);
    }
  }

  lemma ReadBlocksStep(c: seq<Byte>, ver: Version, n: nat)
    requires |c| == RawCodewords(ver) && n < NumBlocks(ver)
    ensures ReadBlocks(c, ver, 0) == []
    ensures ReadBlocks(c, ver, n + 1) == ReadBlocks(c, ver, n) + ReadBlockData(c, ver, n)
  {
    hide ReadBlockData, NumBlocks, RawCodewords;
  }

  lemma BlockDataJoins(data: seq<Byte>, ver: Version, j: nat)
    requires |data| == DataCodewords(ver) && j < NumBlocks(ver)
    ensures BlockStart(ver, j) <= BlockStart(ver, j + 1) <= |data|
    ensures data[..BlockStart(ver, j)] + BlockData(data, ver, j) == data[..BlockStart(ver, j + 1)]
  {
    hide NumBlocks, DataCodewords, BlockStart, DataLen;
    BlockInside(ver, j);
    BlockStartNext(ver, j);
  }

  lemma {:induction false} ReadBlocksBack(bytes: seq<Byte>, ver: Version, n: nat)
    requires Fits(|bytes|, ver) && n <= NumBlocks(ver)
    ensures BlockStart(ver, n) <= DataCodewords(ver)
    ensures ReadBlocks(Codewords(bytes, ver), ver, n) == Data(bytes, ver)[..BlockStart(ver, n)]
  {
    hide *;
    var c, data := Codewords(bytes, ver), Data(bytes, ver);
    if n == 0 {
      SomeBlock(ver);
      ReadBlocksStep(c, ver, 0);
      NoBlocksYet(ver);
    } else {
      ReadBlocksStep(c, ver, n - 1);
      ReadBlocksBack(bytes, ver, n - 1);
      ReadBlockBack(bytes, ver, n - 1);
      BlockDataJoins(data, ver, n - 1);
    }
  }

  lemma NoBlocksYet(ver: Version)
    ensures BlockStart(ver, 0) == 0
  {
  }

  /** Reading the codewords of any payload that fits gives the payload back. */
  lemma DecodeBack(bytes: seq<Byte>, ver: Version)
    requires Fits(|bytes|, ver)
    ensures Decode(Codewords(bytes, ver), ver) == Some(bytes)
  {
    var c, data := Codewords(bytes, ver), Data(bytes, ver);
    assert Decode(c, ver) == ReadData(ReadBlocks(c, ver, NumBlocks(ver)), ver);
    hide *;
    SomeBlock(ver);
    ReadBlocksBack(bytes, ver, NumBlocks(ver));
    BlockInside(ver, 0);
    assert data[..DataCodewords(ver)] == data;
    ReadDataBack(bytes, ver);
  }

  lemma SomeBlock(ver: Version)
    ensures NumBlocks(ver) > 0
  {
    Table(ver);
  }

  /** Every block read back passes the decoder's syndrome check. */
  lemma SyndromesVanish(bytes: seq<Byte>, ver: Version, j: nat, i: nat)
    requires Fits(|bytes|, ver) && j < NumBlocks(ver) && i < EccLen(ver)
    ensures var c := Codewords(bytes, ver);
            Eval(ReadBlockData(c, ver, j) + ReadBlockEcc(c, ver, j), Alpha(i)) == 0
  {
    hide Data, Codewords, Fits, NumBlocks, DataCodewords, RawCodewords, BlockData, ReadBlockData, ReadBlockEcc,
         Eval, Alpha, Remainder, Low, Generator;
    ReadBlockBack(bytes, ver, j);
    EncodedBlockVanishes(BlockData(Data(bytes, ver), ver, j), EccLen(ver), i);
  }

  /** Two payloads that put different data into a block differ there in more
      codewords than the block has for correction. */
  lemma BlocksFarApart(bytes: seq<Byte>, other: seq<Byte>, ver: Version, j: nat)
    requires Fits(|bytes|, ver) && Fits(|other|, ver) && j < NumBlocks(ver)
    requires ReadBlockData(Codewords(bytes, ver), ver, j) != ReadBlockData(Codewords(other, ver), ver, j)
    ensures var a, b := Codewords(bytes, ver), Codewords(other, ver);
            Distance(ReadBlockData(a, ver, j) + ReadBlockEcc(a, ver, j),
                     ReadBlockData(b, ver, j) + ReadBlockEcc(b, ver, j)) > EccLen(ver)
  {
    hide Data, Codewords, Fits, NumBlocks, DataCodewords, RawCodewords, BlockData, ReadBlockData, ReadBlockEcc,
         Distance, Remainder, Low, Generator, EccLen, ShortLen, NumShort;
    ReadBlockBack(bytes, ver, j);
    ReadBlockBack(other, ver, j);
    Shares(ver);
    ShortDataIs(ver);
    EccPositive(ver);
    EncodedBlocksFarApart(BlockData(Data(bytes, ver), ver, j), BlockData(Data(other, ver), ver, j), EccLen(ver));
  }

  // ---- the loops of buildCodewords ----

  method BuildCodewords(bytes: seq<Byte>, ver: Version) returns (out: seq<Byte>)
    requires Fits(|bytes|, ver)
    ensures out == Codewords(bytes, ver)
  {
    var data := BuildData(bytes, ver);
    var blocks := BuildBlocks(data, ver);
    out := Interleave(blocks, ver);
    RowStartEnd(ver);
  }

  method Put(bits: seq<Bit>, val: nat, len: nat) returns (r: seq<Bit>)
    ensures r == bits + PutBits(val, len)
  {
    hide BitAt;
    r := bits;
    var i := len - 1;
    while i >= 0
      invariant -1 <= i < len
      invariant r == bits + PutBits(val, len)[..len - 1 - i]
    {
      r := r + [BitAt(val, i)];
      i := i - 1;
    }
  }

  lemma PutZero(n: nat)
    ensures PutBits(0, n) == Zero(n)
  {
    forall i | 0 <= i < n
      ensures PutBits(0, n)[i] == 0
    {
      BitOfZero(n - 1 - i);
    }
  }

  lemma {:induction false} BitOfZero(i: nat)
    ensures BitAt(0, i) == 0
  {
    if i > 0 {
      BitOfZero(i - 1);
    }
  }

  method BuildData(bytes: seq<Byte>, ver: Version) returns (data: seq<Byte>)
    requires Fits(|bytes|, ver)
    ensures data == Data(bytes, ver)
  {
    hide *;
    var bits := BuildStream(bytes, ver);
    var packed := PackAll(bits);
    DataIs(bytes, ver);
    data := AddPads(packed, ver);
  }

  lemma DataIs(bytes: seq<Byte>, ver: Version)
    requires Fits(|bytes|, ver)
    ensures Data(bytes, ver) == var p := Pack(Stream(bytes, ver)); p + Pads(DataCodewords(ver) - |p|, 0xec)
  {
  }

  method PackAll(bits: seq<Bit>) returns (data: seq<Byte>)
    requires |bits| % 8 == 0
    ensures data == Pack(bits)
  {
    hide Pack, Number;
    data := [];
    var i := 0;
    PackNothing(bits);
    while i < |bits|
      invariant 0 <= i <= |bits| && i % 8 == 0
      invariant data == Pack(bits[..i])
    {
      var v := PackOne(bits[i..i + 8]);
      PackNext(bits, i);
      data := data + [v];
      i := i + 8;
    }
    assert bits[..i] == bits;
  }

  lemma PackNothing(bits: seq<Bit>)
    ensures Pack(bits[..0]) == []
  {
  }

  lemma PackNext(bits: seq<Bit>, i: nat)
    requires i + 8 <= |bits| && i % 8 == 0
    ensures Number(bits[i..i + 8]) < 256
    ensures Pack(bits[..i + 8]) == Pack(bits[..i]) + [Number(bits[i..i + 8])]
  {
    hide Number;
    PutOfNumber(bits[i..i + 8]);
    Pow8();
    assert bits[..i + 8][..i] == bits[..i] && bits[..i + 8][i..] == bits[i..i + 8];
  }

  /** `v = (v << 1) | bit`, eight times */
  method PackOne(bits: seq<Bit>) returns (v: nat)
    ensures v == Number(bits)
  {
    v := 0;
    for j := 0 to |bits|
      invariant v == Number(bits[..j])
    {
      assert bits[..j + 1][..j] == bits[..j];
      v := 2 * v + bits[j];
    }
    assert bits[..|bits|] == bits;
  }

  lemma NothingUnpacked(bytes: seq<Byte>)
    ensures Unpack(bytes[..0]) == []
  {
  }

  method BuildStream(bytes: seq<Byte>, ver: Version) returns (bits: seq<Bit>)
    requires Fits(|bytes|, ver)
    ensures bits == Stream(bytes, ver)
  {
    hide PutBits, Unpack, RawCodewords, RawModules;
    bits := Put([], 4, 4);
    bits := Put(bits, |bytes|, if ver >= 10 then 16 else 8);
    assert bits == Header(|bytes|, ver);
    NothingUnpacked(bytes);
    for n := 0 to |bytes|
      invariant bits == Header(|bytes|, ver) + Unpack(bytes[..n])
    {
      UnpackSnoc(bytes[..n], bytes[n]);
      assert bytes[..n] + [bytes[n]] == bytes[..n + 1];
      bits := Put(bits, bytes[n], 8);
    }
    assert bytes[..|bytes|] == bytes;
    var capBits := DataCodewords(ver) * 8;
    PutZero(Min(4, capBits - |bits|));
    bits := Put(bits, 0, Min(4, capBits - |bits|));
    PutZero((8 - |bits| % 8) % 8);
    bits := Put(bits, 0, (8 - |bits| % 8) % 8);
  }

  method AddPads(p: seq<Byte>, ver: Version) returns (data: seq<Byte>)
    requires |p| <= DataCodewords(ver)
    ensures data == p + Pads(DataCodewords(ver) - |p|, 0xec)
  {
    hide Xor, DataCodewords;
    data := p;
    var pad: nat := 0xec;
    PadToggle();
    while |data| < DataCodewords(ver)
      invariant |data| <= DataCodewords(ver)
      invariant pad == 0xec || pad == 0x11
      invariant data + Pads(DataCodewords(ver) - |data|, pad) == p + Pads(DataCodewords(ver) - |p|, 0xec)
    {
      ghost var before := data;
      data := data + [pad];
      assert before + Pads(DataCodewords(ver) - |before|, pad)
          == data + Pads(DataCodewords(ver) - |data|, OtherPad(pad));
      pad := Xor(pad, Xor(0xec, 0x11));
    }
  }

  method BuildBlocks(data: seq<Byte>, ver: Version) returns (blocks: seq<seq<Byte>>)
    requires |data| == DataCodewords(ver)
    ensures blocks == Blocks(data, ver)
  {
    hide NumBlocks, EccLen, ShortLen, NumShort, DataCodewords, RawCodewords, BlockStart, Generator, Low, Remainder;
    EccPositive(ver);
    var divisor := RsDivisor(EccLen(ver));
    var g := divisor[..];
    blocks := [];
    var k := 0;
    NoBlocksYet(ver);
    for i := 0 to NumBlocks(ver)
      invariant k == BlockStart(ver, i)
      invariant blocks == Blocks(data, ver)[..i]
    {
      Shares(ver);
      BlockInside(ver, i);
      BlockStartNext(ver, i);
      ShortDataIs(ver);
      var dat := data[k..k + (ShortLen(ver) - EccLen(ver) + (if i < NumShort(ver) then 0 else 1))];
      assert dat == BlockData(data, ver, i);
      k := k + |dat|;
      var ecc := RsRemainder(dat, g);
      if i < NumShort(ver) {
        dat := dat + [0];
      }
      assert dat + ecc == Block(data, ver, i);
      blocks := blocks + [dat + ecc];
    }
  }

  method Interleave(blocks: seq<seq<Byte>>, ver: Version) returns (out: seq<Byte>)
    requires |blocks| == NumBlocks(ver) && forall j :: 0 <= j < |blocks| ==> |blocks[j]| == ShortLen(ver) + 1
    ensures out == Rows(blocks, ver, ShortLen(ver) + 1)
  {
    hide NumBlocks, ShortLen, Row, RowStart;
    SomeBlock(ver);
    out := [];
    for i := 0 to |blocks[0]|
      invariant out == Rows(blocks, ver, i)
    {
      var row := InterleaveRow(blocks, ver, i);
      out := out + row;
    }
  }

  lemma SkipsFillers(ver: Version, i: nat, j: nat)
    ensures i != ShortLen(ver) - EccLen(ver) || j >= NumShort(ver) <==> j >= FirstInRow(ver, i)
  {
    Shares(ver);
  }

  /** The inner loop over the blocks. */
  method InterleaveRow(blocks: seq<seq<Byte>>, ver: Version, i: nat) returns (row: seq<Byte>)
    requires |blocks| == NumBlocks(ver) && forall j :: 0 <= j < |blocks| ==> |blocks[j]| == ShortLen(ver) + 1
    requires i <= ShortLen(ver)
    ensures row == Row(blocks, ver, i)
  {
    hide NumBlocks, EccLen, ShortLen, NumShort, FirstInRow;
    ghost var f := FirstInRow(ver, i);
    row := [];
    for j := 0 to |blocks|
      invariant |row| == if j <= f then 0 else j - f
      invariant forall k :: 0 <= k < |row| ==> row[k] == blocks[f + k][i]
    {
      SkipsFillers(ver, i, j);
      if i != ShortLen(ver) - EccLen(ver) || j >= NumShort(ver) {
        row := row + [blocks[j][i]];
      }
    }
  }
}
