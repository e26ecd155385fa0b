/** A reader of symbols, and the round trip. */
module QrReader {
  import opened Bits
  import opened QrCapacity
  import opened QrLayout
  import opened QrInfo
  import opened QrCodewords
  import opened QrStandard
  import M = QrMatrix
  import opened Wrappers

  /** Where format bit i is shown: around the top-left finder, and split between the
      other two. */
  function FormatCell(i: nat): (int, int)
    requires i < 15
  {
    if i <= 5 then (8, i) else if i <= 7 then (8, i + 1) else if i == 8 then (7, 8) else (14 - i, 8)
  }

  function OtherFormatCell(ver: Version, i: nat): (int, int)
    requires i < 15
  {
    if i < 8 then (Size(ver) - 1 - i, 8) else (8, Size(ver) - 15 + i)
  }

  function BitOf(dark: bool): Bit { if dark then 1 else 0 }

  ghost predicate WellShaped(g: M.Grid) {
    && |g| % 4 == 1 && 21 <= |g| <= 57
    && forall y :: 0 <= y < |g| ==> |g[y]| == |g|
  }

  function VersionOf(g: M.Grid): Version
    requires |g| % 4 == 1 && 21 <= |g| <= 57
  {
    (|g| - 17) / 4
  }

  /** Format bit i as one copy shows it. */
  ghost function FormatBit(g: M.Grid, ver: Version, other: bool, i: nat): Bit
    requires M.SquareGrid(g, ver) && i < 15
  {
    var p := if other then OtherFormatCell(ver, i) else FormatCell(i);
    BitOf(g[p.1][p.0])
  }

  /** The 15-bit word shown by one copy of the format information. */
  ghost function FormatShown(g: M.Grid, ver: Version, other: bool): nat
    requires M.SquareGrid(g, ver)
  {
    Number(seq(15, i requires 0 <= i < 15 => FormatBit(g, ver, other, 14 - i)))
  }

  /** The corners, the timing lines, the alignment patterns, the dark module and both copies of
      the version information are as the standard pictures them. */
  ghost predicate Looks(g: M.Grid, ver: Version)
    requires M.SquareGrid(g, ver)
  {
    && Corners(g, ver) && Timings(g, ver) && Bullseyes(g, ver) && g[Size(ver) - 8][8]
    && (ver >= 7 ==> Versions(g, ver))
  }

  ghost predicate Corners(g: M.Grid, ver: Version)
    requires M.SquareGrid(g, ver)
  {
    var e := Size(ver) - 1;
    forall u, v :: 0 <= u < 8 && 0 <= v < 8 ==>
      g[v][u] == CornerDark(u, v) && g[v][e - u] == CornerDark(u, v) && g[e - v][u] == CornerDark(u, v)
  }

  ghost predicate Timings(g: M.Grid, ver: Version)
    requires M.SquareGrid(g, ver)
  {
    forall i :: 8 <= i < Size(ver) - 8 ==> g[6][i] == (i % 2 == 0) && g[i][6] == (i % 2 == 0)
  }

  ghost predicate Bullseyes(g: M.Grid, ver: Version)
    requires M.SquareGrid(g, ver)
  {
    forall c, u, v :: c in Centres(ver) && 0 <= u < 5 && 0 <= v < 5 ==> BullseyeAt(g, ver, c, u, v)
  }

  ghost predicate BullseyeAt(g: M.Grid, ver: Version, c: (int, int), u: int, v: int)
    requires M.SquareGrid(g, ver) && 0 <= u < 5 && 0 <= v < 5
  {
    var x, y := c.0 - 2 + u, c.1 - 2 + v;
    InGrid(ver, x, y) && g[y][x] == BullseyeDark(u, v)
  }

  ghost predicate Versions(g: M.Grid, ver: Version)
    requires M.SquareGrid(g, ver)
  {
    forall i: nat :: i < 18 ==>
      var x, y := Size(ver) - 11 + i % 3, i / 3;
      g[y][x] == (BitAt(VersionWord(ver), i) == 1) && g[x][y] == (BitAt(VersionWord(ver), i) == 1)
  }

  /** The codeword bits: data modules in zigzag order with the mask taken off. */
  ghost function StreamShown(g: M.Grid, ver: Version, mask: nat): (s: seq<Bit>)
    requires M.SquareGrid(g, ver) && mask < 8
    ensures |s| == 8 * RawCodewords(ver)
  {
    M.Enough(ver);
    FreeCellsExact(ver);
    var f := FreeCells(ver);
    seq(8 * RawCodewords(ver), i requires 0 <= i < 8 * RawCodewords(ver) =>
      assert f[i] in f;
      BitOf(g[f[i].1][f[i].0] != Pattern(mask, f[i].0, f[i].1)))
  }

  /** Mask from the format information, codewords from the data modules, bytes from the
      codewords; nothing if the patterns are wrong. */
  ghost function ReadVersion(g: M.Grid, ver: Version, other: bool): Option<seq<Byte>>
    requires M.SquareGrid(g, ver)
  {
    if !Looks(g, ver) then None
    else match ReadFormat(FormatShown(g, ver, other))
    case None => None
    case Some(mask) => ReadStream(StreamShown(g, ver, mask), ver)
  }

  function ReadStream(s: seq<Bit>, ver: Version): Option<seq<Byte>>
    requires |s| == 8 * RawCodewords(ver)
  {
    hide RawCodewords;
    Decode(Pack(s), ver)
  }

  /** The version is given by the size. */
  ghost function Read(g: M.Grid, other: bool): Option<seq<Byte>> {
    if !WellShaped(g) then None
    else
      assert M.SquareGrid(g, VersionOf(g));
      ReadVersion(g, VersionOf(g), other)
  }

  lemma FormatCellIndex(ver: Version, i: nat)
    requires i < 15
    ensures var p := FormatCell(i);
      InGrid(ver, p.0, p.1) && Format(ver, p.0, p.1) && FormatIndex(ver, p.0, p.1) == i && !(p.0 == 8 && p.1 == Size(ver) - 8)
    ensures var p := OtherFormatCell(ver, i);
      InGrid(ver, p.0, p.1) && Format(ver, p.0, p.1) && FormatIndex(ver, p.0, p.1) == i && !(p.0 == 8 && p.1 == Size(ver) - 8)
  {
  }

  lemma FormatModule(ver: Version, mask: nat, x: int, y: int)
    requires Format(ver, x, y) && !(x == 8 && y == Size(ver) - 8)
    ensures IsFn(ver, x, y)
    ensures 0 <= FormatIndex(ver, x, y)
    ensures FnDark(ver, mask, x, y) == (BitAt(FormatWord(mask), FormatIndex(ver, x, y)) == 1)
  {
    hide BitAt, FormatWord;
  }

  lemma SymbolIsSquare(g: M.Grid, ver: Version, mask: nat, codewords: seq<Byte>)
    requires |codewords| == RawCodewords(ver) && M.IsSymbol(g, ver, mask, codewords)
    ensures M.SquareGrid(g, ver)
  {
    hide IsFn, FnDark, FreeCells;
  }

  /** Either copy shows the format word of the mask. */
  lemma FormatReads(g: M.Grid, ver: Version, mask: nat, codewords: seq<Byte>, other: bool)
    requires mask < 8 && |codewords| == RawCodewords(ver) && M.IsSymbol(g, ver, mask, codewords)
    ensures FormatShown(g, ver, other) == FormatWord(mask)
  {
    hide *;
    SymbolIsSquare(g, ver, mask, codewords);
    ReadFormatBack(mask);
    NumberOfPut(FormatWord(mask), 15);
    FormatBitsRead(g, ver, mask, codewords, other);
    ShownIs(g, ver, other, FormatWord(mask));
  }

  lemma FormatBitsRead(g: M.Grid, ver: Version, mask: nat, codewords: seq<Byte>, other: bool)
    requires mask < 8 && |codewords| == RawCodewords(ver) && M.IsSymbol(g, ver, mask, codewords) && M.SquareGrid(g, ver)
    ensures forall i :: 0 <= i < 15 ==> FormatBit(g, ver, other, i) == BitAt(FormatWord(mask), i)
  {
    hide *;
    forall i | 0 <= i < 15
      ensures FormatBit(g, ver, other, i) == BitAt(FormatWord(mask), i)
    {
      FormatBitReads(g, ver, mask, codewords, other, i);
    }
  }

  lemma ShownIs(g: M.Grid, ver: Version, other: bool, word: nat)
    requires M.SquareGrid(g, ver)
    requires forall i :: 0 <= i < 15 ==> FormatBit(g, ver, other, i) == BitAt(word, i)
    ensures FormatShown(g, ver, other) == Number(PutBits(word, 15))
  {
    hide BitAt, FormatBit, Number, PutBits, M.SquareGrid;
    var s: seq<Bit> := seq(15, i requires 0 <= i < 15 => FormatBit(g, ver, other, 14 - i));
    PutIs(s, word);
  }

  lemma PutIs(s: seq<Bit>, word: nat)
    requires |s| == 15 && forall i :: 0 <= i < 15 ==> s[i] == BitAt(word, 14 - i)
    ensures s == PutBits(word, 15)
  {
    hide BitAt;
  }

  lemma FormatBitReads(g: M.Grid, ver: Version, mask: nat, codewords: seq<Byte>, other: bool, i: nat)
    requires mask < 8 && |codewords| == RawCodewords(ver) && M.IsSymbol(g, ver, mask, codewords) && i < 15
    ensures FormatBit(g, ver, other, i) == BitAt(FormatWord(mask), i)
  {
    hide BitAt, FormatWord, RawCodewords, IsFn, FnDark, Format, FormatIndex, FreeCells, FormatCell, OtherFormatCell;
    var p := if other then OtherFormatCell(ver, i) else FormatCell(i);
    FormatCellIndex(ver, i);
    FormatModule(ver, mask, p.0, p.1);
  }

  lemma {:induction false} StreamIsUnpacked(codewords: seq<Byte>, k: nat)
    requires k < 8 * |codewords|
    ensures M.StreamBit(codewords, k) == Unpack(codewords)[k]
  {
    hide BitAt;
    var n := |codewords| - 1;
    if k < 8 * n {
      StreamIsUnpacked(codewords[..n], k);
    }
  }

  lemma FnShown(g: M.Grid, ver: Version, mask: nat, codewords: seq<Byte>, x: int, y: int)
    requires |codewords| == RawCodewords(ver) && M.IsSymbol(g, ver, mask, codewords) && M.SquareGrid(g, ver)
    requires InGrid(ver, x, y) && IsFn(ver, x, y)
    ensures g[y][x] == FnDark(ver, mask, x, y)
  {
    hide IsFn, FnDark, FreeCells, RawCodewords;
  }

  lemma CornersRead(g: M.Grid, ver: Version, mask: nat, codewords: seq<Byte>)
    requires |codewords| == RawCodewords(ver) && M.IsSymbol(g, ver, mask, codewords) && M.SquareGrid(g, ver)
    ensures Corners(g, ver)
  {
    hide IsFn, FnDark, RawCodewords, M.IsSymbol, CornerDark;
    var e := Size(ver) - 1;
    forall u, v | 0 <= u < 8 && 0 <= v < 8
      ensures g[v][u] == CornerDark(u, v) && g[v][e - u] == CornerDark(u, v) && g[e - v][u] == CornerDark(u, v)
    {
      CornerPattern(ver, mask, u, v);
      FnShown(g, ver, mask, codewords, u, v);
      FnShown(g, ver, mask, codewords, e - u, v);
      FnShown(g, ver, mask, codewords, u, e - v);
    }
  }

  lemma TimingsRead(g: M.Grid, ver: Version, mask: nat, codewords: seq<Byte>)
    requires |codewords| == RawCodewords(ver) && M.IsSymbol(g, ver, mask, codewords) && M.SquareGrid(g, ver)
    ensures Timings(g, ver)
  {
    hide IsFn, FnDark, RawCodewords, M.IsSymbol;
    forall i | 8 <= i < Size(ver) - 8
      ensures g[6][i] == (i % 2 == 0) && g[i][6] == (i % 2 == 0)
    {
      TimingPattern(ver, mask, i);
      FnShown(g, ver, mask, codewords, i, 6);
      FnShown(g, ver, mask, codewords, 6, i);
    }
  }

  lemma BullseyesRead(g: M.Grid, ver: Version, mask: nat, codewords: seq<Byte>)
    requires |codewords| == RawCodewords(ver) && M.IsSymbol(g, ver, mask, codewords) && M.SquareGrid(g, ver)
    ensures Bullseyes(g, ver)
  {
    hide IsFn, FnDark, RawCodewords, M.IsSymbol, Centres, BullseyeDark;
    forall c, u, v | c in Centres(ver) && 0 <= u < 5 && 0 <= v < 5
      ensures BullseyeAt(g, ver, c, u, v)
    {
      BullseyePattern(ver, mask, c, u, v);
      FnShown(g, ver, mask, codewords, c.0 - 2 + u, c.1 - 2 + v);
    }
  }

  lemma VersionsRead(g: M.Grid, ver: Version, mask: nat, codewords: seq<Byte>)
    requires |codewords| == RawCodewords(ver) && M.IsSymbol(g, ver, mask, codewords) && M.SquareGrid(g, ver) && ver >= 7
    ensures Versions(g, ver)
  {
    hide IsFn, FnDark, RawCodewords, M.IsSymbol, BitAt, VersionWord;
    forall i: nat | i < 18
      ensures var x, y := Size(ver) - 11 + i % 3, i / 3;
        g[y][x] == (BitAt(VersionWord(ver), i) == 1) && g[x][y] == (BitAt(VersionWord(ver), i) == 1)
    {
      var x, y := Size(ver) - 11 + i % 3, i / 3;
      VersionBits(ver, mask, i);
      FnShown(g, ver, mask, codewords, x, y);
      FnShown(g, ver, mask, codewords, y, x);
    }
  }

  /** Every symbol looks as the standard pictures it. */
  lemma SymbolLooks(g: M.Grid, ver: Version, mask: nat, codewords: seq<Byte>)
    requires |codewords| == RawCodewords(ver) && M.IsSymbol(g, ver, mask, codewords) && M.SquareGrid(g, ver)
    ensures Looks(g, ver)
  {
    hide IsFn, FnDark, RawCodewords, M.IsSymbol, Corners, Timings, Bullseyes, Versions;
    CornersRead(g, ver, mask, codewords);
    TimingsRead(g, ver, mask, codewords);
    BullseyesRead(g, ver, mask, codewords);
    DarkModule(ver, mask);
    FnShown(g, ver, mask, codewords, 8, Size(ver) - 8);
    if ver >= 7 {
      VersionsRead(g, ver, mask, codewords);
    }
  }

  lemma StreamReads(g: M.Grid, ver: Version, mask: nat, codewords: seq<Byte>)
    requires mask < 8 && |codewords| == RawCodewords(ver) && M.IsSymbol(g, ver, mask, codewords)
    ensures StreamShown(g, ver, mask) == Unpack(codewords)
  {
    hide RawCodewords, IsFn, FnDark, FreeCells, MaskBit, Pattern;
    hide M.StreamBit;
    hide Unpack;
    M.Enough(ver);
    FreeCellsExact(ver);
    forall k | 0 <= k < 8 * |codewords|
      ensures StreamShown(g, ver, mask)[k] == Unpack(codewords)[k]
    {
      StreamIsUnpacked(codewords, k);
      assert FreeCells(ver)[k] in FreeCells(ver);
      MaskIsPattern(mask, FreeCells(ver)[k].0, FreeCells(ver)[k].1);
    }
  }

  lemma VersionReads(g: M.Grid, bytes: seq<Byte>, ver: Version, mask: nat, other: bool)
    requires mask < 8 && Fits(|bytes|, ver) && M.SquareGrid(g, ver)
    requires M.IsSymbol(g, ver, mask, Codewords(bytes, ver))
    ensures ReadVersion(g, ver, other) == Some(bytes)
  {
    hide Codewords, RawCodewords, IsFn, FnDark, FreeCells, Fits, Unpack, Pack, FormatShown, StreamShown, Decode,
         ReadFormat, FormatWord, M.IsSymbol, M.SquareGrid, Looks;
    var c := Codewords(bytes, ver);
    SymbolLooks(g, ver, mask, c);
    FormatReads(g, ver, mask, c, other);
    ReadFormatBack(mask);
    StreamReads(g, ver, mask, c);
    PackOfUnpack(c);
    DecodeBack(bytes, ver);
  }

  /** Whatever the mask, and from either copy of the format information, the reader
      gets the bytes back. */
  lemma SymbolReads(g: M.Grid, bytes: seq<Byte>, ver: Version, mask: nat, other: bool)
    requires mask < 8 && Fits(|bytes|, ver)
    requires M.IsSymbol(g, ver, mask, Codewords(bytes, ver))
    ensures Read(g, other) == Some(bytes)
  {
    hide Codewords, RawCodewords, IsFn, FnDark, FreeCells, Fits, ReadVersion;
    SymbolIsSquare(g, ver, mask, Codewords(bytes, ver));
    VersionReads(g, bytes, ver, mask, other);
  }

  /** qrMatrix followed by the reader is the identity on payloads of up to 271 bytes. */
  method EncodeAndRead(bytes: seq<Byte>, forceMask: Option<nat>, penalty: M.Grid -> int)
    returns (g: Option<M.Grid>)
    requires forceMask.Some? ==> forceMask.value < 8
    ensures g.None? <==> |bytes| > 271
    ensures g.Some? ==> forall other :: Read(g.value, other) == Some(bytes)
  {
    hide M.IsSymbol, M.Drawn, Read, Codewords, Fits;
    var r := M.QrMatrix(bytes, forceMask, penalty);
    if r.None? {
      return None;
    }
    var rows := M.Rows(r.value);
    ghost var ver: Version, mask: nat :|
      && mask < 8
      && Fits(|bytes|, ver) && (forall u: Version :: u < ver ==> !Fits(|bytes|, u))
      && M.IsSymbol(rows, ver, mask, Codewords(bytes, ver))
      && M.Drawn(rows, bytes, ver, mask, forceMask, penalty);
    SymbolReads(rows, bytes, ver, mask, false);
    SymbolReads(rows, bytes, ver, mask, true);
    return Some(rows);
  }
}
