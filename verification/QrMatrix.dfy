/** qrMatrix of qr.ts: drawing, placement and masking on two module arrays. */
module QrMatrix {
  import opened Bits
  import opened QrCapacity
  import opened QrLayout
  import opened QrInfo
  import opened QrCodewords
  import opened Wrappers

  type Grid = seq<seq<bool>>

  function Rows(m: array2<bool>): Grid
    reads m
  {
    seq(m.Length0, y requires 0 <= y < m.Length0 reads m =>
      seq(m.Length1, x requires 0 <= x < m.Length1 reads m => m[y, x]))
  }

  ghost predicate SquareGrid(g: Grid, ver: Version) {
    |g| == Size(ver) && forall y :: 0 <= y < |g| ==> |g[y]| == Size(ver)
  }

  ghost predicate Square(m: array2<bool>, ver: Version) {
    m.Length0 == Size(ver) && m.Length1 == Size(ver)
  }

  // ---- the function patterns, layer by layer ----

  /** Modules set once the first k drawing steps are done. */
  predicate LayerFn(ver: Version, k: nat, x: int, y: int) {
    || (k >= 1 && Timing(x, y))
    || (k >= 2 && Finder(ver, x, y))
    || (k >= 3 && Alignment(ver, x, y))
    || (k >= 4 && Format(ver, x, y))
    || (k >= 5 && VersionInfo(ver, x, y))
  }

  predicate LayerDark(ver: Version, mask: nat, k: nat, x: int, y: int) {
    if k >= 4 && Format(ver, x, y) then FormatDark(ver, mask, x, y)
    else if k >= 5 && VersionInfo(ver, x, y) then VersionDark(ver, x, y)
    else if k >= 3 && Alignment(ver, x, y) then AlignmentDark(ver, x, y)
    else if k >= 2 && Finder(ver, x, y) then FinderDark(ver, x, y)
    else k >= 1 && Timing(x, y) && TimingDark(x, y)
  }

  ghost predicate Canvas(mod: array2<bool>, fn: array2<bool>, ver: Version, mask: nat, k: nat)
    reads mod, fn
  {
    && mod != fn && Square(mod, ver) && Square(fn, ver)
    && forall x, y :: InGrid(ver, x, y) ==>
         fn[y, x] == LayerFn(ver, k, x, y) && mod[y, x] == LayerDark(ver, mask, k, x, y)
  }

  method SetFn(mod: array2<bool>, fn: array2<bool>, ver: Version, x: int, y: int, dark: bool)
    requires mod != fn && Square(mod, ver) && Square(fn, ver) && InGrid(ver, x, y)
    modifies mod, fn
    ensures mod[y, x] == dark && fn[y, x]
    ensures forall u, v :: InGrid(ver, u, v) && (u != x || v != y) ==>
              mod[v, u] == old(mod[v, u]) && fn[v, u] == old(fn[v, u])
  {
    mod[y, x] := dark;
    fn[y, x] := true;
  }

  method DrawTiming(mod: array2<bool>, fn: array2<bool>, ver: Version, ghost mask: nat)
    requires Canvas(mod, fn, ver, mask, 0)
    modifies mod, fn
    ensures Canvas(mod, fn, ver, mask, 1)
  {
    hide Finder, Alignment, Format, VersionInfo, FinderDark, AlignmentDark, FormatDark, VersionDark;
    for i := 0 to Size(ver)
      invariant forall x, y :: InGrid(ver, x, y) ==>
        fn[y, x] == ((x == 6 && y < i) || (y == 6 && x < i)) && mod[y, x] == (fn[y, x] && TimingDark(x, y))
    {
      SetFn(mod, fn, ver, 6, i, i % 2 == 0);
      SetFn(mod, fn, ver, i, 6, i % 2 == 0);
    }
  }

  method DrawFinder(mod: array2<bool>, fn: array2<bool>, ver: Version, cx: int, cy: int)
    requires mod != fn && Square(mod, ver) && Square(fn, ver)
    modifies mod, fn
    ensures forall x, y :: InGrid(ver, x, y) ==>
      if Near(cx, x, 4) && Near(cy, y, 4)
      then fn[y, x] && mod[y, x] == (Ring(cx, cy, x, y) != 2 && Ring(cx, cy, x, y) != 4)
      else fn[y, x] == old(fn[y, x]) && mod[y, x] == old(mod[y, x])
  {
    for dy := -4 to 5
      invariant forall x, y :: InGrid(ver, x, y) ==>
        if Near(cx, x, 4) && cy - 4 <= y < cy + dy
        then fn[y, x] && mod[y, x] == (Ring(cx, cy, x, y) != 2 && Ring(cx, cy, x, y) != 4)
        else fn[y, x] == old(fn[y, x]) && mod[y, x] == old(mod[y, x])
    {
      for dx := -4 to 5
        invariant forall x, y :: InGrid(ver, x, y) ==>
          if (Near(cx, x, 4) && cy - 4 <= y < cy + dy) || (y == cy + dy && cx - 4 <= x < cx + dx)
          then fn[y, x] && mod[y, x] == (Ring(cx, cy, x, y) != 2 && Ring(cx, cy, x, y) != 4)
          else fn[y, x] == old(fn[y, x]) && mod[y, x] == old(mod[y, x])
      {
        var d := Max(Abs(dx), Abs(dy));
        var x, y := cx + dx, cy + dy;
        if 0 <= x < Size(ver) && 0 <= y < Size(ver) {
          SetFn(mod, fn, ver, x, y, d != 2 && d != 4);
        }
      }
    }
  }

  method DrawFinders(mod: array2<bool>, fn: array2<bool>, ver: Version, ghost mask: nat)
    requires Canvas(mod, fn, ver, mask, 1)
    modifies mod, fn
    ensures Canvas(mod, fn, ver, mask, 2)
  {
    hide Alignment, Format, VersionInfo, AlignmentDark, FormatDark, VersionDark, Timing, TimingDark;
    DrawFinder(mod, fn, ver, 3, 3);
    DrawFinder(mod, fn, ver, Size(ver) - 4, 3);
    DrawFinder(mod, fn, ver, 3, Size(ver) - 4);
  }

  method DrawAlignment(mod: array2<bool>, fn: array2<bool>, ver: Version, cx: int, cy: int)
    requires mod != fn && Square(mod, ver) && Square(fn, ver)
    requires 2 <= cx < Size(ver) - 2 && 2 <= cy < Size(ver) - 2
    modifies mod, fn
    ensures forall x, y :: InGrid(ver, x, y) ==>
      if Near(cx, x, 2) && Near(cy, y, 2)
      then fn[y, x] && mod[y, x] == (Ring(cx, cy, x, y) != 1)
      else fn[y, x] == old(fn[y, x]) && mod[y, x] == old(mod[y, x])
  {
    for dy := -2 to 3
      invariant forall x, y :: InGrid(ver, x, y) ==>
        if Near(cx, x, 2) && cy - 2 <= y < cy + dy
        then fn[y, x] && mod[y, x] == (Ring(cx, cy, x, y) != 1)
        else fn[y, x] == old(fn[y, x]) && mod[y, x] == old(mod[y, x])
    {
      for dx := -2 to 3
        invariant forall x, y :: InGrid(ver, x, y) ==>
          if (Near(cx, x, 2) && cy - 2 <= y < cy + dy) || (y == cy + dy && cx - 2 <= x < cx + dx)
          then fn[y, x] && mod[y, x] == (Ring(cx, cy, x, y) != 1)
          else fn[y, x] == old(fn[y, x]) && mod[y, x] == old(mod[y, x])
      {
        SetFn(mod, fn, ver, cx + dx, cy + dy, Max(Abs(dx), Abs(dy)) != 1);
      }
    }
  }

  /** Some alignment pattern before (i, j) in the drawing order covers the module. */
  ghost predicate AlignedBefore(ver: Version, i: int, j: int, x: int, y: int) {
    var al := AlignmentPositions(ver);
    exists a, b :: 0 <= a < |al| && 0 <= b < |al| && Before(a, b, i, j) && AlignmentAt(al, a, b, x, y)
  }

  lemma AlignedNext(ver: Version, i: int, j: int, x: int, y: int)
    requires var al := AlignmentPositions(ver); 0 <= i < |al| && 0 <= j < |al|
    ensures AlignedBefore(ver, i, j + 1, x, y) <==>
            AlignedBefore(ver, i, j, x, y) || AlignmentAt(AlignmentPositions(ver), i, j, x, y)
  {
    hide AlignmentPositions, AlignmentAt;
    var al := AlignmentPositions(ver);
    if AlignedBefore(ver, i, j + 1, x, y) {
      var a, b :| 0 <= a < |al| && 0 <= b < |al| && Before(a, b, i, j + 1) && AlignmentAt(al, a, b, x, y);
    }
  }

  lemma AlignedRow(ver: Version, i: int, x: int, y: int)
    ensures AlignedBefore(ver, i + 1, 0, x, y) <==> AlignedBefore(ver, i, |AlignmentPositions(ver)|, x, y)
    ensures !AlignedBefore(ver, 0, 0, x, y)
    ensures AlignedBefore(ver, |AlignmentPositions(ver)|, 0, x, y) <==> Alignment(ver, x, y)
  {
    hide AlignmentPositions, AlignmentAt;
  }

  /** The patterns do not meet, so the colour is that of the one covering pattern. */
  lemma AlignmentUnique(ver: Version, i: int, j: int, x: int, y: int)
    requires var al := AlignmentPositions(ver); 0 <= i < |al| && 0 <= j < |al| && AlignmentAt(al, i, j, x, y)
    ensures var al := AlignmentPositions(ver); AlignmentDark(ver, x, y) == (Ring(al[i], al[j], x, y) != 1)
  {
    AlignmentTable(ver);
    hide AlignmentPositions, Ring;
  }

  lemma AlignmentInside(ver: Version, i: int)
    requires 0 <= i < |AlignmentPositions(ver)|
    ensures 2 <= AlignmentPositions(ver)[i] < Size(ver) - 2
  {
    AlignmentTable(ver);
  }

  ghost predicate AlignmentProgress(mod: array2<bool>, fn: array2<bool>, ver: Version, mask: nat, i: int, j: int)
    reads mod, fn
  {
    && mod != fn && Square(mod, ver) && Square(fn, ver)
    && forall x, y :: InGrid(ver, x, y) ==>
         && fn[y, x] == (LayerFn(ver, 2, x, y) || AlignedBefore(ver, i, j, x, y))
         && mod[y, x] == if AlignedBefore(ver, i, j, x, y) then AlignmentDark(ver, x, y)
                         else LayerDark(ver, mask, 2, x, y)
  }

  method DrawAlignments(mod: array2<bool>, fn: array2<bool>, ver: Version, ghost mask: nat)
    requires Canvas(mod, fn, ver, mask, 2)
    modifies mod, fn
    ensures Canvas(mod, fn, ver, mask, 3)
  {
    hide Alignment, AlignmentPositions, AlignmentDark, AlignedBefore, Format, VersionInfo, Finder, FinderDark,
         FormatDark, VersionDark, TimingDark, Timing, AlignmentAt;
    var al := ComputeAlignmentPositions(ver);
    forall x, y
      ensures !AlignedBefore(ver, 0, 0, x, y)
      ensures AlignedBefore(ver, |al|, 0, x, y) <==> Alignment(ver, x, y)
    {
      AlignedRow(ver, 0, x, y);
    }
    for i := 0 to |al|
      invariant AlignmentProgress(mod, fn, ver, mask, i, 0)
    {
      for j := 0 to |al|
        invariant AlignmentProgress(mod, fn, ver, mask, i, j)
      {
        OneAlignment(mod, fn, ver, mask, al, i, j);
      }
      forall x, y
        ensures AlignedBefore(ver, i + 1, 0, x, y) <==> AlignedBefore(ver, i, |al|, x, y)
      {
        AlignedRow(ver, i, x, y);
      }
    }
  }

  /** The body of the inner forEach. */
  method OneAlignment(mod: array2<bool>, fn: array2<bool>, ver: Version, ghost mask: nat, al: seq<int>, i: int, j: int)
    requires al == AlignmentPositions(ver) && 0 <= i < |al| && 0 <= j < |al|
    requires AlignmentProgress(mod, fn, ver, mask, i, j)
    modifies mod, fn
    ensures AlignmentProgress(mod, fn, ver, mask, i, j + 1)
  {
    hide Alignment, AlignmentPositions, AlignmentDark, AlignedBefore, LayerDark, LayerFn, Ring;
    forall x, y
      ensures AlignedBefore(ver, i, j + 1, x, y) <==> AlignedBefore(ver, i, j, x, y) || AlignmentAt(al, i, j, x, y)
    {
      AlignedNext(ver, i, j, x, y);
    }
    if (i == 0 && j == 0) || (i == 0 && j == |al| - 1) || (i == |al| - 1 && j == 0) {
      return;
    }
    AlignmentInside(ver, i);
    AlignmentInside(ver, j);
    DrawAlignment(mod, fn, ver, al[i], al[j]);
    forall x, y | AlignmentAt(al, i, j, x, y)
      ensures AlignmentDark(ver, x, y) == (Ring(al[i], al[j], x, y) != 1)
    {
      AlignmentUnique(ver, i, j, x, y);
    }
  }

  // ---- format information ----

  predicate FirstCopy(x: int, y: int) {
    (x == 8 && 0 <= y <= 8 && y != 6) || (y == 8 && 0 <= x <= 7 && x != 6)
  }

  predicate SecondCopy(ver: Version, x: int, y: int) {
    (x == 8 && Size(ver) - 7 <= y < Size(ver)) || (y == 8 && Size(ver) - 8 <= x < Size(ver))
  }

  lemma FormatParts(ver: Version, x: int, y: int)
    ensures Format(ver, x, y) <==> FirstCopy(x, y) || SecondCopy(ver, x, y) || (x == 8 && y == Size(ver) - 8)
  {
  }

  /** The modules of one copy that show bits below n are drawn, the rest is as before. */
  twostate predicate CopyDrawn(mod: array2<bool>, fn: array2<bool>, ver: Version, mask: nat, second: bool, n: nat)
    reads mod, fn
  {
    && mod != fn && Square(mod, ver) && Square(fn, ver)
    && forall x, y :: InGrid(ver, x, y) ==>
         if (if second then SecondCopy(ver, x, y) else FirstCopy(x, y)) && FormatIndex(ver, x, y) < n
         then fn[y, x] && mod[y, x] == (BitAt(FormatWord(mask), FormatIndex(ver, x, y)) == 1)
         else fn[y, x] == old(fn[y, x]) && mod[y, x] == old(mod[y, x])
  }

  method DrawFirstCopy(mod: array2<bool>, fn: array2<bool>, ver: Version, ghost mask: nat, bits: nat)
    requires mod != fn && Square(mod, ver) && Square(fn, ver) && bits == FormatWord(mask)
    modifies mod, fn
    ensures CopyDrawn(mod, fn, ver, mask, false, 15)
  {
    hide BitAt, FormatWord, FirstCopy, FormatIndex;
    FirstCopyStart(ver);
    for i := 0 to 6
      invariant CopyDrawn(mod, fn, ver, mask, false, i)
    {
      FirstCopyAt(ver, i, 8, i);
      SetFn(mod, fn, ver, 8, i, BitAt(bits, i) == 1);
    }
    FirstCopyAt(ver, 6, 8, 7);
    SetFn(mod, fn, ver, 8, 7, BitAt(bits, 6) == 1);
    FirstCopyAt(ver, 7, 8, 8);
    SetFn(mod, fn, ver, 8, 8, BitAt(bits, 7) == 1);
    FirstCopyAt(ver, 8, 7, 8);
    SetFn(mod, fn, ver, 7, 8, BitAt(bits, 8) == 1);
    for i := 9 to 15
      invariant CopyDrawn(mod, fn, ver, mask, false, i)
    {
      FirstCopyAt(ver, i, 14 - i, 8);
      SetFn(mod, fn, ver, 14 - i, 8, BitAt(bits, i) == 1);
    }
  }

  lemma FirstCopyStart(ver: Version)
    ensures forall u, v :: FirstCopy(u, v) ==> FormatIndex(ver, u, v) >= 0
  {
  }

  /** Module (x, y) is the one place of bit i in the first copy. */
  lemma FirstCopyAt(ver: Version, i: int, x: int, y: int)
    requires (0 <= i <= 5 && x == 8 && y == i) || (6 <= i <= 7 && x == 8 && y == i + 1)
          || (i == 8 && x == 7 && y == 8) || (9 <= i < 15 && x == 14 - i && y == 8)
    ensures FirstCopy(x, y) && FormatIndex(ver, x, y) == i
    ensures forall u, v :: FirstCopy(u, v) && FormatIndex(ver, u, v) == i ==> u == x && v == y
  {
  }

  method DrawSecondCopy(mod: array2<bool>, fn: array2<bool>, ver: Version, ghost mask: nat, bits: nat)
    requires mod != fn && Square(mod, ver) && Square(fn, ver) && bits == FormatWord(mask)
    modifies mod, fn
    ensures CopyDrawn(mod, fn, ver, mask, true, 15)
  {
    hide BitAt, FormatWord;
    for i := 0 to 8
      invariant CopyDrawn(mod, fn, ver, mask, true, i)
    {
      SetFn(mod, fn, ver, Size(ver) - 1 - i, 8, BitAt(bits, i) == 1);
    }
    for i := 8 to 15
      invariant CopyDrawn(mod, fn, ver, mask, true, i)
    {
      SetFn(mod, fn, ver, 8, Size(ver) - 15 + i, BitAt(bits, i) == 1);
    }
  }

  lemma IndexRange(ver: Version, x: int, y: int)
    requires FirstCopy(x, y) || SecondCopy(ver, x, y)
    ensures 0 <= FormatIndex(ver, x, y) < 15
  {
  }

  method DrawFormat(mod: array2<bool>, fn: array2<bool>, ver: Version, mask: nat)
    requires mod != fn && Square(mod, ver) && Square(fn, ver) && mask < 8
    modifies mod, fn
    ensures forall x, y :: InGrid(ver, x, y) ==>
      if Format(ver, x, y) then fn[y, x] && mod[y, x] == FormatDark(ver, mask, x, y)
      else fn[y, x] == old(fn[y, x]) && mod[y, x] == old(mod[y, x])
  {
    hide BitAt, FormatWord, FormatIndex, Format;
    var bits := ComputeFormatWord(mask);
    DrawFirstCopy(mod, fn, ver, mask, bits);
    DrawSecondCopy(mod, fn, ver, mask, bits);
    SetFn(mod, fn, ver, 8, Size(ver) - 8, true);
    forall x, y | InGrid(ver, x, y)
      ensures Format(ver, x, y) <==> FirstCopy(x, y) || SecondCopy(ver, x, y) || (x == 8 && y == Size(ver) - 8)
      ensures FirstCopy(x, y) || SecondCopy(ver, x, y) ==> 0 <= FormatIndex(ver, x, y) < 15
    {
      FormatParts(ver, x, y);
      if FirstCopy(x, y) || SecondCopy(ver, x, y) {
        IndexRange(ver, x, y);
      }
    }
  }

  method DrawVersion(mod: array2<bool>, fn: array2<bool>, ver: Version)
    requires mod != fn && Square(mod, ver) && Square(fn, ver) && ver >= 7
    modifies mod, fn
    ensures forall x, y :: InGrid(ver, x, y) ==>
      if VersionInfo(ver, x, y) then fn[y, x] && mod[y, x] == VersionDark(ver, x, y)
      else fn[y, x] == old(fn[y, x]) && mod[y, x] == old(mod[y, x])
  {
    hide BitAt, VersionWord;
    var bits := ComputeVersionWord(ver);
    for i := 0 to 18
      invariant forall x, y :: InGrid(ver, x, y) ==>
        if VersionInfo(ver, x, y) && VersionIndex(ver, x, y) < i
        then fn[y, x] && mod[y, x] == VersionDark(ver, x, y)
        else fn[y, x] == old(fn[y, x]) && mod[y, x] == old(mod[y, x])
    {
      var b := BitAt(bits, i) == 1;
      var a, c := Size(ver) - 11 + i % 3, i / 3;
      SetFn(mod, fn, ver, a, c, b);
      SetFn(mod, fn, ver, c, a, b);
    }
  }

  // ---- the data modules ----

  /** Bit k of the codeword stream: `(codewords[k >>> 3] >>> (7 - (k & 7))) & 1` */
  function StreamBit(codewords: seq<Byte>, k: nat): Bit
    requires k < 8 * |codewords|
  {
    BitAt(codewords[k / 8], 7 - k % 8)
  }

  /** The first n of the visited free modules show the stream, all else is as it was. */
  ghost predicate Placed(mod: array2<bool>, was: Grid, ver: Version, codewords: seq<Byte>, f: seq<(int, int)>, n: nat)
    requires n <= |f| && n <= 8 * |codewords|
    requires SquareGrid(was, ver)
    reads mod
  {
    && Square(mod, ver)
    && (forall i :: 0 <= i < n ==>
          InGrid(ver, f[i].0, f[i].1) && mod[f[i].1, f[i].0] == (StreamBit(codewords, i) == 1))
    && (forall x, y :: InGrid(ver, x, y) && (x, y) !in f[..n] ==> mod[y, x] == was[y][x])
  }

  ghost predicate PlacedUpTo(mod: array2<bool>, was: Grid, ver: Version, codewords: seq<Byte>, c: nat, s: nat, k: nat)
    reads mod
  {
    && SquareGrid(was, ver)
    && k == Min(|Visited(ver, c, s)|, 8 * |codewords|)
    && Placed(mod, was, ver, codewords, Visited(ver, c, s), k)
  }

  lemma VisitedStep(ver: Version, c: nat, s: nat)
    requires c < Pairs(ver) && s < 2 * Size(ver)
    ensures var p := Cell(ver, c, s);
      && Visited(ver, c, s + 1) == Visited(ver, c, s) + (if IsFn(ver, p.0, p.1) then [] else [p])
      && p !in Visited(ver, c, s)
  {
    hide IsFn, Cell, VisitedIs;
    VisitedExactly(ver, c, s);
    CellFresh(ver, c, s);
  }

  /** Nothing is written: a function module, or the stream has run out. */
  lemma PlaceNothing(mod: array2<bool>, was: Grid, ver: Version, codewords: seq<Byte>, c: nat, s: nat, k: nat)
    requires c < Pairs(ver) && s < 2 * Size(ver)
    requires PlacedUpTo(mod, was, ver, codewords, c, s, k)
    requires var p := Cell(ver, c, s); IsFn(ver, p.0, p.1) || k == 8 * |codewords|
    ensures PlacedUpTo(mod, was, ver, codewords, c, s + 1, k)
  {
    VisitedStep(ver, c, s);
    hide IsFn, StreamBit, Visited, Cell;
    var f, f' := Visited(ver, c, s), Visited(ver, c, s + 1);
    assert f'[..k] == f[..k];
  }

  method PlaceBit(mod: array2<bool>, ghost was: Grid, ver: Version, codewords: seq<Byte>,
                  ghost f: seq<(int, int)>, x: int, y: int, k: nat)
    requires SquareGrid(was, ver)
    requires k == |f| && k < 8 * |codewords| && InGrid(ver, x, y) && (x, y) !in f
    requires Placed(mod, was, ver, codewords, f, k)
    modifies mod
    ensures Placed(mod, was, ver, codewords, f + [(x, y)], k + 1)
  {
    hide StreamBit;
    assert f[..k] == f;
    ghost var f' := f + [(x, y)];
    assert f'[..k + 1] == f';
    assert forall i :: 0 <= i < k ==> f'[i] == f[i] && f[i] in f;
    mod[y, x] := StreamBit(codewords, k) == 1;
  }

  /** One visit of the placement loop. */
  method PlaceOne(mod: array2<bool>, fn: array2<bool>, ghost was: Grid, ver: Version, codewords: seq<Byte>,
                  ghost c: nat, ghost s: nat, x: int, y: int, k0: nat) returns (k: nat)
    requires mod != fn && Square(mod, ver) && Square(fn, ver)
    requires forall x, y :: InGrid(ver, x, y) ==> fn[y, x] == IsFn(ver, x, y)
    requires c < Pairs(ver) && s < 2 * Size(ver) && Cell(ver, c, s) == (x, y) && InGrid(ver, x, y)
    requires PlacedUpTo(mod, was, ver, codewords, c, s, k0)
    modifies mod
    ensures PlacedUpTo(mod, was, ver, codewords, c, s + 1, k)
  {
    hide IsFn, StreamBit, Visited, Cell, Placed;
    VisitedStep(ver, c, s);
    k := k0;
    if !fn[y, x] && k < |codewords| * 8 {
      PlaceBit(mod, was, ver, codewords, Visited(ver, c, s), x, y, k);
      k := k + 1;
    } else {
      PlaceNothing(mod, was, ver, codewords, c, s, k);
    }
  }

  lemma CellIs(ver: Version, c: nat, vert: nat, j: nat)
    requires c < Pairs(ver) && vert < Size(ver) && j < 2
    ensures var right := Right(ver, c);
            var x, y := right - j, if (right + 1) % 4 < 2 then Size(ver) - 1 - vert else vert;
            Cell(ver, c, 2 * vert + j) == (x, y) && InGrid(ver, x, y)
  {
    hide Right;
    assert (2 * vert + j) / 2 == vert && (2 * vert + j) % 2 == j;
    ZigzagInside(ver, c, 2 * vert + j);
  }

  method PlacePair(mod: array2<bool>, fn: array2<bool>, ghost was: Grid, ver: Version, codewords: seq<Byte>,
                   ghost c: nat, right: int, k0: nat) returns (k: nat)
    requires mod != fn && Square(mod, ver) && Square(fn, ver)
    requires forall x, y :: InGrid(ver, x, y) ==> fn[y, x] == IsFn(ver, x, y)
    requires c < Pairs(ver) && right == Right(ver, c)
    requires PlacedUpTo(mod, was, ver, codewords, c, 0, k0)
    modifies mod
    ensures PlacedUpTo(mod, was, ver, codewords, c, 2 * Size(ver), k)
  {
    hide IsFn, StreamBit, Visited, PlacedUpTo, Cell, Right;
    k := k0;
    for vert := 0 to Size(ver)
      invariant PlacedUpTo(mod, was, ver, codewords, c, 2 * vert, k)
    {
      for j := 0 to 2
        invariant PlacedUpTo(mod, was, ver, codewords, c, 2 * vert + j, k)
      {
        var x := right - j;
        var upward := (right + 1) % 4 < 2;
        var y := if upward then Size(ver) - 1 - vert else vert;
        CellIs(ver, c, vert, j);
        k := PlaceOne(mod, fn, was, ver, codewords, c, 2 * vert + j, x, y, k);
      }
    }
  }

  lemma NextVisitedRound(ver: Version, c: nat)
    ensures Visited(ver, c + 1, 0) == Visited(ver, c, 2 * Size(ver))
    ensures Visited(ver, 0, 0) == []
  {
  }

  /** There is a module for every codeword bit. */
  lemma Enough(ver: Version)
    ensures 8 * RawCodewords(ver) <= |FreeCells(ver)| && |FreeCells(ver)| - 8 * RawCodewords(ver) < 8
  {
    FreeCellsExact(ver);
    Table(ver);
  }

  lemma NothingPlaced(mod: array2<bool>, was: Grid, ver: Version, codewords: seq<Byte>)
    requires Square(mod, ver) && was == Rows(mod)
    ensures PlacedUpTo(mod, was, ver, codewords, 0, 0, 0)
  {
    hide IsFn, StreamBit, Visited;
    NextVisitedRound(ver, 0);
  }

  lemma PairPlaced(mod: array2<bool>, was: Grid, ver: Version, codewords: seq<Byte>, c: nat, k: nat)
    requires PlacedUpTo(mod, was, ver, codewords, c, 2 * Size(ver), k)
    ensures PlacedUpTo(mod, was, ver, codewords, c + 1, 0, k)
  {
    hide IsFn, StreamBit, Visited, Placed;
    NextVisitedRound(ver, c);
  }

  lemma AllPlaced(mod: array2<bool>, was: Grid, ver: Version, codewords: seq<Byte>, k: nat)
    requires PlacedUpTo(mod, was, ver, codewords, Pairs(ver), 0, k) && |codewords| == RawCodewords(ver)
    ensures 8 * |codewords| <= |FreeCells(ver)| && SquareGrid(was, ver)
    ensures Placed(mod, was, ver, codewords, FreeCells(ver), 8 * |codewords|)
  {
    hide IsFn, StreamBit, Visited, Placed, RawCodewords, RawModules;
    Enough(ver);
  }

  method PlaceData(mod: array2<bool>, fn: array2<bool>, ghost was: Grid, ver: Version, codewords: seq<Byte>)
    requires mod != fn && Square(mod, ver) && Square(fn, ver)
    requires forall x, y :: InGrid(ver, x, y) ==> fn[y, x] == IsFn(ver, x, y)
    requires |codewords| == RawCodewords(ver) && was == Rows(mod)
    modifies mod
    ensures 8 * |codewords| <= |FreeCells(ver)|
    ensures SquareGrid(was, ver)
    ensures Placed(mod, was, ver, codewords, FreeCells(ver), 8 * |codewords|)
  {
    hide IsFn, StreamBit, Visited, RawCodewords, RawModules, PlacedUpTo, Placed, FreeCells;
    var k := 0;
    var right := Size(ver) - 1;
    ghost var c := 0;
    NothingPlaced(mod, was, ver, codewords);
    while right >= 1
      invariant c <= Pairs(ver)
      invariant right == if Size(ver) - 1 - 2 * c >= 6 then Size(ver) - 1 - 2 * c else Size(ver) - 2 - 2 * c
      invariant PlacedUpTo(mod, was, ver, codewords, c, 0, k)
      decreases right
    {
      if right == 6 {
        right := 5;
      }
      k := PlacePair(mod, fn, was, ver, codewords, c, right, k);
      PairPlaced(mod, was, ver, codewords, c, k);
      c := c + 1;
      right := right - 2;
    }
    AllPlaced(mod, was, ver, codewords, k);
  }

  // ---- masking ----

  method ApplyMask(mod: array2<bool>, fn: array2<bool>, ver: Version, mask: nat)
    requires mod != fn && Square(mod, ver) && Square(fn, ver)
    modifies mod
    ensures forall x, y :: InGrid(ver, x, y) ==>
      mod[y, x] == (old(mod[y, x]) != (!fn[y, x] && MaskBit(mask, x, y)))
  {
    hide MaskBit;
    for y := 0 to Size(ver)
      invariant forall u, v :: InGrid(ver, u, v) ==>
        mod[v, u] == (if v < y then old(mod[v, u]) != (!fn[v, u] && MaskBit(mask, u, v)) else old(mod[v, u]))
    {
      for x := 0 to Size(ver)
        invariant forall u, v :: InGrid(ver, u, v) ==>
          mod[v, u] == (if v < y || (v == y && u < x) then old(mod[v, u]) != (!fn[v, u] && MaskBit(mask, u, v))
                        else old(mod[v, u]))
      {
        if !fn[y, x] && MaskBit(mask, x, y) {
          mod[y, x] := !mod[y, x];
        }
      }
    }
  }

  /** g with a mask applied to its data modules. */
  ghost function Masked(g: Grid, ver: Version, mask: nat): Grid
    requires SquareGrid(g, ver)
  {
    seq(|g|, y requires 0 <= y < |g| =>
      seq(|g[y]|, x requires 0 <= x < |g[y]| => g[y][x] != (!IsFn(ver, x, y) && MaskBit(mask, x, y))))
  }

  /** Mask best has the least penalty on g of all eight, and is the first to. */
  ghost predicate FirstOfLeast(g: Grid, ver: Version, penalty: Grid -> int, best: nat)
    requires SquareGrid(g, ver)
  {
    var p := penalty(Masked(g, ver, best));
    forall m :: 0 <= m < 8 ==>
      p <= penalty(Masked(g, ver, m)) && (m < best ==> p < penalty(Masked(g, ver, m)))
  }

  /** The trial loop: eight masks put on and taken off again. The penalty score is a
      parameter; the first mask with the least score wins and the matrix is as before. */
  method ChooseMask(mod: array2<bool>, fn: array2<bool>, ver: Version, penalty: Grid -> int) returns (best: nat)
    requires mod != fn && Square(mod, ver) && Square(fn, ver)
    requires forall x, y :: InGrid(ver, x, y) ==> fn[y, x] == IsFn(ver, x, y)
    modifies mod
    ensures Rows(mod) == old(Rows(mod))
    ensures best < 8 && FirstOfLeast(Rows(mod), ver, penalty, best)
  {
    hide MaskBit, IsFn;
    ghost var g := Rows(mod);
    best := 0;
    var bestP := 0;
    for m := 0 to 8
      invariant Rows(mod) == g
      invariant m > 0 ==> best < m && bestP == penalty(Masked(g, ver, best))
      invariant m == 0 ==> best == 0
      invariant forall n :: 0 <= n < m ==>
        bestP <= penalty(Masked(g, ver, n)) && (n < best ==> bestP < penalty(Masked(g, ver, n)))
    {
      var p := TryMask(mod, fn, ver, m, penalty);
      if m == 0 || p < bestP {
        bestP := p;
        best := m;
      }
    }
  }

  lemma SameGrid(a: Grid, b: Grid)
    requires |a| == |b| && forall y :: 0 <= y < |a| ==> |a[y]| == |b[y]|
    requires forall y, x :: 0 <= y < |a| && 0 <= x < |a[y]| ==> a[y][x] == b[y][x]
    ensures a == b
  {
    assert forall y :: 0 <= y < |a| ==> a[y] == b[y];
  }

  method TryMask(mod: array2<bool>, fn: array2<bool>, ver: Version, m: nat, penalty: Grid -> int) returns (p: int)
    requires mod != fn && Square(mod, ver) && Square(fn, ver)
    requires forall x, y :: InGrid(ver, x, y) ==> fn[y, x] == IsFn(ver, x, y)
    modifies mod
    ensures Rows(mod) == old(Rows(mod))
    ensures p == penalty(Masked(old(Rows(mod)), ver, m))
  {
    hide MaskBit, IsFn;
    ghost var g := Rows(mod);
    ApplyMask(mod, fn, ver, m);
    SameGrid(Rows(mod), Masked(g, ver, m));
    p := penalty(Rows(mod));
    ApplyMask(mod, fn, ver, m);
    SameGrid(Rows(mod), g);
  }

  // ---- the whole symbol ----

  /** The finished symbol: function patterns, and the codeword stream in zigzag order
      under the mask, with unused data modules light before masking. */
  ghost predicate IsSymbol(g: Grid, ver: Version, mask: nat, codewords: seq<Byte>)
    requires |codewords| == RawCodewords(ver)
  {
    var f := FreeCells(ver);
    && SquareGrid(g, ver)
    && (forall x, y :: InGrid(ver, x, y) && IsFn(ver, x, y) ==> g[y][x] == FnDark(ver, mask, x, y))
    && (forall i :: 0 <= i < |f| ==>
          && InGrid(ver, f[i].0, f[i].1)
          && g[f[i].1][f[i].0] == ((i < 8 * |codewords| && StreamBit(codewords, i) == 1) != MaskBit(mask, f[i].0, f[i].1)))
  }

  lemma LayersFinal(ver: Version, mask: nat, x: int, y: int)
    ensures LayerFn(ver, 5, x, y) == IsFn(ver, x, y)
    ensures IsFn(ver, x, y) ==> LayerDark(ver, mask, 5, x, y) == FnDark(ver, mask, x, y)
    ensures !IsFn(ver, x, y) ==> !LayerDark(ver, mask, 5, x, y)
  {
    hide Timing, Finder, Alignment, Format, FinderDark, AlignmentDark, FormatDark, VersionDark, TimingDark;
  }

  lemma FormatFirst(ver: Version, old_: nat, mask: nat, x: int, y: int)
    ensures IsFn(ver, x, y) && !Format(ver, x, y) ==> FnDark(ver, old_, x, y) == FnDark(ver, mask, x, y)
    ensures Format(ver, x, y) ==> FnDark(ver, mask, x, y) == FormatDark(ver, mask, x, y) && IsFn(ver, x, y)
  {
    hide Timing, Finder, Alignment, FinderDark, AlignmentDark, FormatDark, VersionDark, TimingDark;
  }

  /** Timing, finder, alignment and provisional format information. */
  method DrawCommon(ver: Version) returns (mod: array2<bool>, fn: array2<bool>)
    ensures fresh(mod) && fresh(fn) && Canvas(mod, fn, ver, 0, 4)
  {
    hide Timing, Finder, Alignment, Format, VersionInfo, FinderDark, AlignmentDark, FormatDark, VersionDark, TimingDark;
    var size := Size(ver);
    mod := new bool[size, size]((_, _) => false);
    fn := new bool[size, size]((_, _) => false);
    DrawTiming(mod, fn, ver, 0);
    DrawFinders(mod, fn, ver, 0);
    DrawAlignments(mod, fn, ver, 0);
    DrawFormat(mod, fn, ver, 0);
  }

  method DrawVersionIfAny(mod: array2<bool>, fn: array2<bool>, ver: Version)
    requires Canvas(mod, fn, ver, 0, 4)
    modifies mod, fn
    ensures Canvas(mod, fn, ver, 0, 5)
  {
    hide Timing, Finder, Alignment, Format, VersionInfo, FinderDark, AlignmentDark, FormatDark, VersionDark, TimingDark;
    forall x, y
      ensures VersionInfo(ver, x, y) ==> !Format(ver, x, y) && ver >= 7
    {
      VersionOffFormat(ver, x, y);
    }
    if ver >= 7 {
      DrawVersion(mod, fn, ver);
    }
  }

  /** Every step up to the placement of data. */
  method DrawPatterns(ver: Version) returns (mod: array2<bool>, fn: array2<bool>)
    ensures fresh(mod) && fresh(fn) && mod != fn && Square(mod, ver) && Square(fn, ver)
    ensures forall x, y :: InGrid(ver, x, y) ==>
      fn[y, x] == IsFn(ver, x, y) && mod[y, x] == (IsFn(ver, x, y) && FnDark(ver, 0, x, y))
  {
    hide IsFn, FnDark, LayerFn, LayerDark;
    mod, fn := DrawCommon(ver);
    DrawVersionIfAny(mod, fn, ver);
    forall x, y
      ensures LayerFn(ver, 5, x, y) == IsFn(ver, x, y)
      ensures IsFn(ver, x, y) ==> LayerDark(ver, 0, 5, x, y) == FnDark(ver, 0, x, y)
      ensures !IsFn(ver, x, y) ==> !LayerDark(ver, 0, 5, x, y)
    {
      LayersFinal(ver, 0, x, y);
    }
  }

  lemma VersionOffFormat(ver: Version, x: int, y: int)
    ensures VersionInfo(ver, x, y) ==> !Format(ver, x, y) && ver >= 7
  {
  }

  /** The patterns for mask 0 and nothing else. */
  ghost predicate PatternsOnly(was: Grid, ver: Version) {
    && SquareGrid(was, ver)
    && forall x, y :: InGrid(ver, x, y) ==> was[y][x] == (IsFn(ver, x, y) && FnDark(ver, 0, x, y))
  }

  /** The stream written into the free modules of was. */
  ghost predicate StreamPlaced(placed: Grid, was: Grid, ver: Version, codewords: seq<Byte>) {
    var f, n := FreeCells(ver), 8 * |codewords|;
    && SquareGrid(was, ver) && SquareGrid(placed, ver) && n <= |f|
    && (forall i :: 0 <= i < n ==>
          InGrid(ver, f[i].0, f[i].1) && placed[f[i].1][f[i].0] == (StreamBit(codewords, i) == 1))
    && (forall x, y :: InGrid(ver, x, y) && (x, y) !in f[..n] ==> placed[y][x] == was[y][x])
  }

  /** Mask and final format information laid over placed. */
  ghost predicate Finished(g: Grid, placed: Grid, ver: Version, mask: nat) {
    && SquareGrid(g, ver) && SquareGrid(placed, ver)
    && forall x, y :: InGrid(ver, x, y) ==>
         g[y][x] == if Format(ver, x, y) then FormatDark(ver, mask, x, y)
                    else placed[y][x] != (!IsFn(ver, x, y) && MaskBit(mask, x, y))
  }

  lemma FinishedSymbol(was: Grid, placed: Grid, g: Grid, ver: Version, mask: nat, codewords: seq<Byte>)
    requires |codewords| == RawCodewords(ver)
    requires PatternsOnly(was, ver) && StreamPlaced(placed, was, ver, codewords) && Finished(g, placed, ver, mask)
    ensures IsSymbol(g, ver, mask, codewords)
  {
    FreeCellsExact(ver);
    var f, n := FreeCells(ver), 8 * |codewords|;
    hide IsFn, FnDark, Format, FormatDark, MaskBit, StreamBit, FreeCells, RawCodewords;
    forall x, y | InGrid(ver, x, y) && IsFn(ver, x, y)
      ensures g[y][x] == FnDark(ver, mask, x, y)
    {
      FormatFirst(ver, 0, mask, x, y);
      assert (x, y) !in f;
    }
    forall i | 0 <= i < |f|
      ensures InGrid(ver, f[i].0, f[i].1)
      ensures g[f[i].1][f[i].0] == ((i < n && StreamBit(codewords, i) == 1) != MaskBit(mask, f[i].0, f[i].1))
    {
      var p := f[i];
      assert p in f;
      FormatFirst(ver, 0, mask, p.0, p.1);
      if i >= n {
        assert forall j :: 0 <= j < n ==> f[j] != f[i];
        assert (p.0, p.1) !in f[..n];
      }
    }
  }

  /** g is drawn for the bytes: patterns, stream, and over both the mask, the least penalized
      one unless a mask was asked for, with its format information. */
  ghost predicate Drawn(g: Grid, bytes: seq<Byte>, ver: Version, mask: nat, forceMask: Option<nat>, penalty: Grid -> int)
    requires Fits(|bytes|, ver)
  {
    exists was: Grid, placed: Grid ::
      && PatternsOnly(was, ver) && StreamPlaced(placed, was, ver, Codewords(bytes, ver))
      && Finished(g, placed, ver, mask)
      && (if forceMask.Some? then mask == forceMask.value else FirstOfLeast(placed, ver, penalty, mask))
  }

  /** qrMatrix for a payload given as bytes. */
  method QrMatrix(bytes: seq<Byte>, forceMask: Option<nat>, penalty: Grid -> int) returns (r: Option<array2<bool>>)
    requires forceMask.Some? ==> forceMask.value < 8
    ensures r.None? <==> |bytes| > 271
    ensures r.Some? ==> exists ver: Version, mask: nat ::
      && mask < 8 && Fits(|bytes|, ver) && (forall u: Version :: u < ver ==> !Fits(|bytes|, u))
      && IsSymbol(Rows(r.value), ver, mask, Codewords(bytes, ver))
      && Drawn(Rows(r.value), bytes, ver, mask, forceMask, penalty)
  {
    hide IsFn, FnDark, Format, FormatDark, MaskBit, StreamBit, FreeCells, RawCodewords, Fits, IsSymbol, Codewords,
         FirstOfLeast;
    var chosen := ChooseVersion(|bytes|);
    if chosen.None? {
      return None;
    }
    var ver := chosen.value;
    var mod, fn := DrawPatterns(ver);
    var codewords := BuildCodewords(bytes, ver);
    ghost var was := Rows(mod);
    PlaceData(mod, fn, was, ver, codewords);
    ghost var placed := Rows(mod);
    assert StreamPlaced(placed, was, ver, codewords);
    var best := 0;
    if forceMask.Some? {
      best := forceMask.value;
    } else {
      best := ChooseMask(mod, fn, ver, penalty);
    }
    assert Rows(mod) == placed;
    Finish(mod, fn, ver, best);
    FinishedSymbol(was, placed, Rows(mod), ver, best, codewords);
    assert Drawn(Rows(mod), bytes, ver, best, forceMask, penalty);
    return Some(mod);
  }

  method Finish(mod: array2<bool>, fn: array2<bool>, ver: Version, best: nat)
    requires mod != fn && Square(mod, ver) && Square(fn, ver) && best < 8
    requires forall x, y :: InGrid(ver, x, y) ==> fn[y, x] == IsFn(ver, x, y)
    modifies mod, fn
    ensures Finished(Rows(mod), old(Rows(mod)), ver, best)
  {
    hide IsFn, Format, FormatDark, MaskBit;
    ApplyMask(mod, fn, ver, best);
    DrawFormat(mod, fn, ver, best);
  }
}
